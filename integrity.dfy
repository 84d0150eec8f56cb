/** What the statements of module Tables guarantee about the integrity rules
    of utils/db/schema.ts: an INSERT succeeds exactly when the new row keeps
    every rule, a DELETE that succeeds leaves every rule in force, and the
    particular consequences the schema's declarations promise. */
module Integrity {
  import opened Wrappers
  import opened SchemaEnums
  import opened SchemaRows
  import opened Tables

  // ---------------------------------------------------------------------
  // INSERT: accepted exactly when the rules keep holding

  lemma InsertUserKeepsReferences(db: Db, id: Uuid, x: User)
    requires ReferencesExist(db) && UserViolation(db, id, x) == None
    ensures ReferencesExist(db.(users := db.users[id := x]))
  {
    var db' := db.(users := db.users[id := x]);
    assert OwnersExist(db');
  }

  lemma InsertUserKeepsUnique(db: Db, id: Uuid, x: User)
    requires UniqueConstraintsHold(db) && UserViolation(db, id, x) == None
    ensures UniqueConstraintsHold(db.(users := db.users[id := x]))
  {
    var m := db.users[id := x];
    forall a, b | a in m && b in m && a != b
      ensures m[a].email != m[b].email && m[a].supabaseUserId != m[b].supabaseUserId
    {
      if a == id {
        assert b in db.users && m[b] == db.users[b];
      } else if b == id {
        assert a in db.users && m[a] == db.users[a];
      } else {
        assert m[a] == db.users[a] && m[b] == db.users[b];
      }
    }
    assert UsersUnique(m);
  }

  lemma InsertUserKeeps(db: Db, id: Uuid, x: User)
    requires Consistent(db) && UserViolation(db, id, x) == None
    ensures Consistent(db.(users := db.users[id := x]))
  {
    InsertUserKeepsReferences(db, id, x);
    InsertUserKeepsUnique(db, id, x);
  }

  lemma InsertUserNeeds(db: Db, id: Uuid, x: User)
    requires id !in db.users && Consistent(db.(users := db.users[id := x]))
    ensures UserViolation(db, id, x) == None
  {
    var db' := db.(users := db.users[id := x]);
    assert id in db'.users;
    forall k | k in db.users ensures db.users[k].supabaseUserId != x.supabaseUserId && db.users[k].email != x.email {
      assert k != id && k in db'.users;
    }
  }

  lemma InsertUserIff(db: Db, id: Uuid, x: User)
    requires Consistent(db)
    ensures UserViolation(db, id, x) == None <==> id !in db.users && Consistent(db.(users := db.users[id := x]))
  {
    if UserViolation(db, id, x) == None { InsertUserKeeps(db, id, x); }
    if id !in db.users && Consistent(db.(users := db.users[id := x])) { InsertUserNeeds(db, id, x); }
  }

  /** InsertUserIff, as InsertRow sees it. */
  lemma InsertUserAsRow(db: Db, id: Uuid, r: Row)
    requires r.UserRow?
    ensures Put(db, id, r) == db.(users := db.users[id := r.user]) && Keys(db, TableOf(r)) == db.users.Keys
    ensures InsertRow(db, id, r).Success? <==> UserViolation(db, id, r.user) == None
    ensures InsertRow(db, id, r).Success? ==> InsertRow(db, id, r).value == Put(db, id, r)
  {
  }

  lemma InsertSubscriptionKeepsReferences(db: Db, id: Uuid, x: Subscription)
    requires ReferencesExist(db) && SubscriptionViolation(db, id, x) == None
    ensures ReferencesExist(db.(subscriptions := db.subscriptions[id := x]))
  {
    var db' := db.(subscriptions := db.subscriptions[id := x]);
    assert OwnersExist(db');
  }

  lemma InsertSubscriptionKeepsUnique(db: Db, id: Uuid, x: Subscription)
    requires UniqueConstraintsHold(db) && SubscriptionViolation(db, id, x) == None
    ensures UniqueConstraintsHold(db.(subscriptions := db.subscriptions[id := x]))
  {
    var m := db.subscriptions[id := x];
    forall a, b | a in m && b in m && a != b && m[a].stripeSubscriptionId.Some?
      ensures m[a].stripeSubscriptionId != m[b].stripeSubscriptionId
    {
      if a == id {
        assert b in db.subscriptions && m[b] == db.subscriptions[b];
      } else if b == id {
        assert a in db.subscriptions && m[a] == db.subscriptions[a];
      } else {
        assert m[a] == db.subscriptions[a] && m[b] == db.subscriptions[b];
      }
    }
    assert SubscriptionsUnique(m);
  }

  lemma InsertSubscriptionKeeps(db: Db, id: Uuid, x: Subscription)
    requires Consistent(db) && SubscriptionViolation(db, id, x) == None
    ensures Consistent(db.(subscriptions := db.subscriptions[id := x]))
  {
    InsertSubscriptionKeepsReferences(db, id, x);
    InsertSubscriptionKeepsUnique(db, id, x);
  }

  lemma InsertSubscriptionNeeds(db: Db, id: Uuid, x: Subscription)
    requires id !in db.subscriptions && Consistent(db.(subscriptions := db.subscriptions[id := x]))
    ensures SubscriptionViolation(db, id, x) == None
  {
    var db' := db.(subscriptions := db.subscriptions[id := x]);
    assert SubscriptionOwnersExist(db'.subscriptions, db'.users);
    assert id in db'.subscriptions;
    forall k | k in db.subscriptions && x.stripeSubscriptionId.Some? ensures db.subscriptions[k].stripeSubscriptionId != x.stripeSubscriptionId {
      assert k != id && k in db'.subscriptions;
    }
  }

  lemma InsertSubscriptionIff(db: Db, id: Uuid, x: Subscription)
    requires Consistent(db)
    ensures SubscriptionViolation(db, id, x) == None <==> id !in db.subscriptions && Consistent(db.(subscriptions := db.subscriptions[id := x]))
  {
    if SubscriptionViolation(db, id, x) == None { InsertSubscriptionKeeps(db, id, x); }
    if id !in db.subscriptions && Consistent(db.(subscriptions := db.subscriptions[id := x])) { InsertSubscriptionNeeds(db, id, x); }
  }

  /** InsertSubscriptionIff, as InsertRow sees it. */
  lemma InsertSubscriptionAsRow(db: Db, id: Uuid, r: Row)
    requires r.SubscriptionRow?
    ensures Put(db, id, r) == db.(subscriptions := db.subscriptions[id := r.subscription]) && Keys(db, TableOf(r)) == db.subscriptions.Keys
    ensures InsertRow(db, id, r).Success? <==> SubscriptionViolation(db, id, r.subscription) == None
    ensures InsertRow(db, id, r).Success? ==> InsertRow(db, id, r).value == Put(db, id, r)
  {
  }

  lemma InsertUsageMetricKeepsReferences(db: Db, id: Uuid, x: UsageMetric)
    requires ReferencesExist(db) && UsageMetricViolation(db, id, x) == None
    ensures ReferencesExist(db.(usageMetrics := db.usageMetrics[id := x]))
  {
    var db' := db.(usageMetrics := db.usageMetrics[id := x]);
    assert OwnersExist(db');
  }

  lemma InsertUsageMetricKeepsUnique(db: Db, id: Uuid, x: UsageMetric)
    requires UniqueConstraintsHold(db) && UsageMetricViolation(db, id, x) == None
    ensures UniqueConstraintsHold(db.(usageMetrics := db.usageMetrics[id := x]))
  {
    var m := db.usageMetrics[id := x];
    forall a, b | a in m && b in m && a != b
      ensures (m[a].userId, m[a].metricType, m[a].periodStart) != (m[b].userId, m[b].metricType, m[b].periodStart)
    {
      if a == id {
        assert b in db.usageMetrics && m[b] == db.usageMetrics[b];
      } else if b == id {
        assert a in db.usageMetrics && m[a] == db.usageMetrics[a];
      } else {
        assert m[a] == db.usageMetrics[a] && m[b] == db.usageMetrics[b];
      }
    }
    assert UsageMetricsUnique(m);
  }

  lemma InsertUsageMetricKeeps(db: Db, id: Uuid, x: UsageMetric)
    requires Consistent(db) && UsageMetricViolation(db, id, x) == None
    ensures Consistent(db.(usageMetrics := db.usageMetrics[id := x]))
  {
    InsertUsageMetricKeepsReferences(db, id, x);
    InsertUsageMetricKeepsUnique(db, id, x);
  }

  lemma InsertUsageMetricNeeds(db: Db, id: Uuid, x: UsageMetric)
    requires id !in db.usageMetrics && Consistent(db.(usageMetrics := db.usageMetrics[id := x]))
    ensures UsageMetricViolation(db, id, x) == None
  {
    var db' := db.(usageMetrics := db.usageMetrics[id := x]);
    assert UsageOwnersExist(db'.usageMetrics, db'.users);
    assert id in db'.usageMetrics;
    forall k | k in db.usageMetrics ensures (db.usageMetrics[k].userId, db.usageMetrics[k].metricType, db.usageMetrics[k].periodStart) != (x.userId, x.metricType, x.periodStart) {
      assert k != id && k in db'.usageMetrics;
    }
  }

  lemma InsertUsageMetricIff(db: Db, id: Uuid, x: UsageMetric)
    requires Consistent(db)
    ensures UsageMetricViolation(db, id, x) == None <==> id !in db.usageMetrics && Consistent(db.(usageMetrics := db.usageMetrics[id := x]))
  {
    if UsageMetricViolation(db, id, x) == None { InsertUsageMetricKeeps(db, id, x); }
    if id !in db.usageMetrics && Consistent(db.(usageMetrics := db.usageMetrics[id := x])) { InsertUsageMetricNeeds(db, id, x); }
  }

  /** InsertUsageMetricIff, as InsertRow sees it. */
  lemma InsertUsageMetricAsRow(db: Db, id: Uuid, r: Row)
    requires r.UsageMetricRow?
    ensures Put(db, id, r) == db.(usageMetrics := db.usageMetrics[id := r.usageMetric]) && Keys(db, TableOf(r)) == db.usageMetrics.Keys
    ensures InsertRow(db, id, r).Success? <==> UsageMetricViolation(db, id, r.usageMetric) == None
    ensures InsertRow(db, id, r).Success? ==> InsertRow(db, id, r).value == Put(db, id, r)
  {
  }

  lemma InsertCompanyKeepsReferences(db: Db, id: Uuid, x: Company)
    requires ReferencesExist(db) && CompanyViolation(db, id, x) == None
    ensures ReferencesExist(db.(companies := db.companies[id := x]))
  {
    var db' := db.(companies := db.companies[id := x]);
    assert OwnersExist(db');
  }

  lemma InsertCompanyKeeps(db: Db, id: Uuid, x: Company)
    requires Consistent(db) && CompanyViolation(db, id, x) == None
    ensures Consistent(db.(companies := db.companies[id := x]))
  {
    InsertCompanyKeepsReferences(db, id, x);
  }

  lemma InsertCompanyNeeds(db: Db, id: Uuid, x: Company)
    requires id !in db.companies && Consistent(db.(companies := db.companies[id := x]))
    ensures CompanyViolation(db, id, x) == None
  {
    var db' := db.(companies := db.companies[id := x]);
    assert CompanyOwnersExist(db'.companies, db'.users);
    assert id in db'.companies;
  }

  lemma InsertCompanyIff(db: Db, id: Uuid, x: Company)
    requires Consistent(db)
    ensures CompanyViolation(db, id, x) == None <==> id !in db.companies && Consistent(db.(companies := db.companies[id := x]))
  {
    if CompanyViolation(db, id, x) == None { InsertCompanyKeeps(db, id, x); }
    if id !in db.companies && Consistent(db.(companies := db.companies[id := x])) { InsertCompanyNeeds(db, id, x); }
  }

  /** InsertCompanyIff, as InsertRow sees it. */
  lemma InsertCompanyAsRow(db: Db, id: Uuid, r: Row)
    requires r.CompanyRow?
    ensures Put(db, id, r) == db.(companies := db.companies[id := r.company]) && Keys(db, TableOf(r)) == db.companies.Keys
    ensures InsertRow(db, id, r).Success? <==> CompanyViolation(db, id, r.company) == None
    ensures InsertRow(db, id, r).Success? ==> InsertRow(db, id, r).value == Put(db, id, r)
  {
  }

  lemma InsertContactKeepsReferences(db: Db, id: Uuid, x: CompanyContact)
    requires ReferencesExist(db) && ContactViolation(db, id, x) == None
    ensures ReferencesExist(db.(contacts := db.contacts[id := x]))
  {
    var db' := db.(contacts := db.contacts[id := x]);
    assert OwnersExist(db');
  }

  lemma InsertContactKeeps(db: Db, id: Uuid, x: CompanyContact)
    requires Consistent(db) && ContactViolation(db, id, x) == None
    ensures Consistent(db.(contacts := db.contacts[id := x]))
  {
    InsertContactKeepsReferences(db, id, x);
  }

  lemma InsertContactNeeds(db: Db, id: Uuid, x: CompanyContact)
    requires id !in db.contacts && Consistent(db.(contacts := db.contacts[id := x]))
    ensures ContactViolation(db, id, x) == None
  {
    var db' := db.(contacts := db.contacts[id := x]);
    assert ContactCompaniesExist(db'.contacts, db'.companies);
    assert id in db'.contacts;
  }

  lemma InsertContactIff(db: Db, id: Uuid, x: CompanyContact)
    requires Consistent(db)
    ensures ContactViolation(db, id, x) == None <==> id !in db.contacts && Consistent(db.(contacts := db.contacts[id := x]))
  {
    if ContactViolation(db, id, x) == None { InsertContactKeeps(db, id, x); }
    if id !in db.contacts && Consistent(db.(contacts := db.contacts[id := x])) { InsertContactNeeds(db, id, x); }
  }

  /** InsertContactIff, as InsertRow sees it. */
  lemma InsertContactAsRow(db: Db, id: Uuid, r: Row)
    requires r.CompanyContactRow?
    ensures Put(db, id, r) == db.(contacts := db.contacts[id := r.contact]) && Keys(db, TableOf(r)) == db.contacts.Keys
    ensures InsertRow(db, id, r).Success? <==> ContactViolation(db, id, r.contact) == None
    ensures InsertRow(db, id, r).Success? ==> InsertRow(db, id, r).value == Put(db, id, r)
  {
  }

  lemma InsertListKeepsReferences(db: Db, id: Uuid, x: CompanyList)
    requires ReferencesExist(db) && ListViolation(db, id, x) == None
    ensures ReferencesExist(db.(lists := db.lists[id := x]))
  {
    var db' := db.(lists := db.lists[id := x]);
    assert OwnersExist(db');
  }

  lemma InsertListKeeps(db: Db, id: Uuid, x: CompanyList)
    requires Consistent(db) && ListViolation(db, id, x) == None
    ensures Consistent(db.(lists := db.lists[id := x]))
  {
    InsertListKeepsReferences(db, id, x);
  }

  lemma InsertListNeeds(db: Db, id: Uuid, x: CompanyList)
    requires id !in db.lists && Consistent(db.(lists := db.lists[id := x]))
    ensures ListViolation(db, id, x) == None
  {
    var db' := db.(lists := db.lists[id := x]);
    assert ListOwnersExist(db'.lists, db'.users);
    assert id in db'.lists;
  }

  lemma InsertListIff(db: Db, id: Uuid, x: CompanyList)
    requires Consistent(db)
    ensures ListViolation(db, id, x) == None <==> id !in db.lists && Consistent(db.(lists := db.lists[id := x]))
  {
    if ListViolation(db, id, x) == None { InsertListKeeps(db, id, x); }
    if id !in db.lists && Consistent(db.(lists := db.lists[id := x])) { InsertListNeeds(db, id, x); }
  }

  /** InsertListIff, as InsertRow sees it. */
  lemma InsertListAsRow(db: Db, id: Uuid, r: Row)
    requires r.CompanyListRow?
    ensures Put(db, id, r) == db.(lists := db.lists[id := r.list]) && Keys(db, TableOf(r)) == db.lists.Keys
    ensures InsertRow(db, id, r).Success? <==> ListViolation(db, id, r.list) == None
    ensures InsertRow(db, id, r).Success? ==> InsertRow(db, id, r).value == Put(db, id, r)
  {
  }

  lemma InsertListItemKeepsReferences(db: Db, id: Uuid, x: CompanyListItem)
    requires ReferencesExist(db) && ListItemViolation(db, id, x) == None
    ensures ReferencesExist(db.(listItems := db.listItems[id := x]))
  {
    var db' := db.(listItems := db.listItems[id := x]);
    assert OwnersExist(db');
  }

  lemma InsertListItemKeepsUnique(db: Db, id: Uuid, x: CompanyListItem)
    requires UniqueConstraintsHold(db) && ListItemViolation(db, id, x) == None
    ensures UniqueConstraintsHold(db.(listItems := db.listItems[id := x]))
  {
    var m := db.listItems[id := x];
    forall a, b | a in m && b in m && a != b
      ensures (m[a].listId, m[a].companyId) != (m[b].listId, m[b].companyId)
    {
      if a == id {
        assert b in db.listItems && m[b] == db.listItems[b];
      } else if b == id {
        assert a in db.listItems && m[a] == db.listItems[a];
      } else {
        assert m[a] == db.listItems[a] && m[b] == db.listItems[b];
      }
    }
    assert ListItemsUnique(m);
  }

  lemma InsertListItemKeeps(db: Db, id: Uuid, x: CompanyListItem)
    requires Consistent(db) && ListItemViolation(db, id, x) == None
    ensures Consistent(db.(listItems := db.listItems[id := x]))
  {
    InsertListItemKeepsReferences(db, id, x);
    InsertListItemKeepsUnique(db, id, x);
  }

  lemma InsertListItemNeeds(db: Db, id: Uuid, x: CompanyListItem)
    requires id !in db.listItems && Consistent(db.(listItems := db.listItems[id := x]))
    ensures ListItemViolation(db, id, x) == None
  {
    var db' := db.(listItems := db.listItems[id := x]);
    assert ItemListsExist(db'.listItems, db'.lists) && ItemCompaniesExist(db'.listItems, db'.companies);
    assert id in db'.listItems;
    forall k | k in db.listItems ensures (db.listItems[k].listId, db.listItems[k].companyId) != (x.listId, x.companyId) {
      assert k != id && k in db'.listItems;
    }
  }

  lemma InsertListItemIff(db: Db, id: Uuid, x: CompanyListItem)
    requires Consistent(db)
    ensures ListItemViolation(db, id, x) == None <==> id !in db.listItems && Consistent(db.(listItems := db.listItems[id := x]))
  {
    if ListItemViolation(db, id, x) == None { InsertListItemKeeps(db, id, x); }
    if id !in db.listItems && Consistent(db.(listItems := db.listItems[id := x])) { InsertListItemNeeds(db, id, x); }
  }

  /** InsertListItemIff, as InsertRow sees it. */
  lemma InsertListItemAsRow(db: Db, id: Uuid, r: Row)
    requires r.CompanyListItemRow?
    ensures Put(db, id, r) == db.(listItems := db.listItems[id := r.listItem]) && Keys(db, TableOf(r)) == db.listItems.Keys
    ensures InsertRow(db, id, r).Success? <==> ListItemViolation(db, id, r.listItem) == None
    ensures InsertRow(db, id, r).Success? ==> InsertRow(db, id, r).value == Put(db, id, r)
  {
  }

  lemma InsertCampaignKeepsReferences(db: Db, id: Uuid, x: Campaign)
    requires ReferencesExist(db) && CampaignViolation(db, id, x) == None
    ensures ReferencesExist(db.(campaigns := db.campaigns[id := x]))
  {
    var db' := db.(campaigns := db.campaigns[id := x]);
    assert OwnersExist(db');
  }

  lemma InsertCampaignKeeps(db: Db, id: Uuid, x: Campaign)
    requires Consistent(db) && CampaignViolation(db, id, x) == None
    ensures Consistent(db.(campaigns := db.campaigns[id := x]))
  {
    InsertCampaignKeepsReferences(db, id, x);
  }

  lemma InsertCampaignNeeds(db: Db, id: Uuid, x: Campaign)
    requires id !in db.campaigns && Consistent(db.(campaigns := db.campaigns[id := x]))
    ensures CampaignViolation(db, id, x) == None
  {
    var db' := db.(campaigns := db.campaigns[id := x]);
    assert CampaignOwnersExist(db'.campaigns, db'.users) && CampaignListsExist(db'.campaigns, db'.lists);
    assert id in db'.campaigns;
  }

  lemma InsertCampaignIff(db: Db, id: Uuid, x: Campaign)
    requires Consistent(db)
    ensures CampaignViolation(db, id, x) == None <==> id !in db.campaigns && Consistent(db.(campaigns := db.campaigns[id := x]))
  {
    if CampaignViolation(db, id, x) == None { InsertCampaignKeeps(db, id, x); }
    if id !in db.campaigns && Consistent(db.(campaigns := db.campaigns[id := x])) { InsertCampaignNeeds(db, id, x); }
  }

  /** InsertCampaignIff, as InsertRow sees it. */
  lemma InsertCampaignAsRow(db: Db, id: Uuid, r: Row)
    requires r.CampaignRow?
    ensures Put(db, id, r) == db.(campaigns := db.campaigns[id := r.campaign]) && Keys(db, TableOf(r)) == db.campaigns.Keys
    ensures InsertRow(db, id, r).Success? <==> CampaignViolation(db, id, r.campaign) == None
    ensures InsertRow(db, id, r).Success? ==> InsertRow(db, id, r).value == Put(db, id, r)
  {
  }

  lemma InsertActivityKeepsReferences(db: Db, id: Uuid, x: SalesActivity)
    requires ReferencesExist(db) && ActivityViolation(db, id, x) == None
    ensures ReferencesExist(db.(activities := db.activities[id := x]))
  {
    var db' := db.(activities := db.activities[id := x]);
    assert OwnersExist(db');
  }

  lemma InsertActivityKeeps(db: Db, id: Uuid, x: SalesActivity)
    requires Consistent(db) && ActivityViolation(db, id, x) == None
    ensures Consistent(db.(activities := db.activities[id := x]))
  {
    InsertActivityKeepsReferences(db, id, x);
  }

  lemma InsertActivityNeeds(db: Db, id: Uuid, x: SalesActivity)
    requires id !in db.activities && Consistent(db.(activities := db.activities[id := x]))
    ensures ActivityViolation(db, id, x) == None
  {
    var db' := db.(activities := db.activities[id := x]);
    assert ActivityCampaignsExist(db'.activities, db'.campaigns) && ActivityCompaniesExist(db'.activities, db'.companies);
    assert id in db'.activities;
  }

  lemma InsertActivityIff(db: Db, id: Uuid, x: SalesActivity)
    requires Consistent(db)
    ensures ActivityViolation(db, id, x) == None <==> id !in db.activities && Consistent(db.(activities := db.activities[id := x]))
  {
    if ActivityViolation(db, id, x) == None { InsertActivityKeeps(db, id, x); }
    if id !in db.activities && Consistent(db.(activities := db.activities[id := x])) { InsertActivityNeeds(db, id, x); }
  }

  /** InsertActivityIff, as InsertRow sees it. */
  lemma InsertActivityAsRow(db: Db, id: Uuid, r: Row)
    requires r.SalesActivityRow?
    ensures Put(db, id, r) == db.(activities := db.activities[id := r.activity]) && Keys(db, TableOf(r)) == db.activities.Keys
    ensures InsertRow(db, id, r).Success? <==> ActivityViolation(db, id, r.activity) == None
    ensures InsertRow(db, id, r).Success? ==> InsertRow(db, id, r).value == Put(db, id, r)
  {
  }

  lemma InsertEmailKeepsReferences(db: Db, id: Uuid, x: EmailActivity)
    requires ReferencesExist(db) && EmailViolation(db, id, x) == None
    ensures ReferencesExist(db.(emails := db.emails[id := x]))
  {
    var db' := db.(emails := db.emails[id := x]);
    assert OwnersExist(db');
  }

  lemma InsertEmailKeepsUnique(db: Db, id: Uuid, x: EmailActivity)
    requires UniqueConstraintsHold(db) && EmailViolation(db, id, x) == None
    ensures UniqueConstraintsHold(db.(emails := db.emails[id := x]))
  {
    var m := db.emails[id := x];
    forall a, b | a in m && b in m && a != b && m[a].trackingId.Some?
      ensures m[a].trackingId != m[b].trackingId
    {
      if a == id {
        assert b in db.emails && m[b] == db.emails[b];
      } else if b == id {
        assert a in db.emails && m[a] == db.emails[a];
      } else {
        assert m[a] == db.emails[a] && m[b] == db.emails[b];
      }
    }
    assert EmailsUnique(m);
  }

  lemma InsertEmailKeeps(db: Db, id: Uuid, x: EmailActivity)
    requires Consistent(db) && EmailViolation(db, id, x) == None
    ensures Consistent(db.(emails := db.emails[id := x]))
  {
    InsertEmailKeepsReferences(db, id, x);
    InsertEmailKeepsUnique(db, id, x);
  }

  lemma InsertEmailNeeds(db: Db, id: Uuid, x: EmailActivity)
    requires id !in db.emails
    requires EmailActivitiesExist(db.emails[id := x], db.activities) && EmailsUnique(db.emails[id := x])
    ensures EmailViolation(db, id, x) == None
  {
    assert id in db.emails[id := x];
    forall k | k in db.emails && x.trackingId.Some? ensures db.emails[k].trackingId != x.trackingId {
      assert k != id && k in db.emails[id := x];
    }
  }

  lemma InsertEmailIff(db: Db, id: Uuid, x: EmailActivity)
    requires Consistent(db)
    ensures EmailViolation(db, id, x) == None <==> id !in db.emails && Consistent(db.(emails := db.emails[id := x]))
  {
    if EmailViolation(db, id, x) == None { InsertEmailKeeps(db, id, x); }
    if id !in db.emails && Consistent(db.(emails := db.emails[id := x])) { InsertEmailNeeds(db, id, x); }
  }

  /** InsertEmailIff, as InsertRow sees it. */
  lemma InsertEmailAsRow(db: Db, id: Uuid, r: Row)
    requires r.EmailActivityRow?
    ensures Put(db, id, r) == db.(emails := db.emails[id := r.email]) && Keys(db, TableOf(r)) == db.emails.Keys
    ensures InsertRow(db, id, r).Success? <==> EmailViolation(db, id, r.email) == None
    ensures InsertRow(db, id, r).Success? ==> InsertRow(db, id, r).value == Put(db, id, r)
  {
  }

  lemma InsertFormKeepsReferences(db: Db, id: Uuid, x: FormActivity)
    requires ReferencesExist(db) && FormViolation(db, id, x) == None
    ensures ReferencesExist(db.(forms := db.forms[id := x]))
  {
    var db' := db.(forms := db.forms[id := x]);
    assert OwnersExist(db');
  }

  lemma InsertFormKeeps(db: Db, id: Uuid, x: FormActivity)
    requires Consistent(db) && FormViolation(db, id, x) == None
    ensures Consistent(db.(forms := db.forms[id := x]))
  {
    InsertFormKeepsReferences(db, id, x);
  }

  lemma InsertFormNeeds(db: Db, id: Uuid, x: FormActivity)
    requires id !in db.forms && Consistent(db.(forms := db.forms[id := x]))
    ensures FormViolation(db, id, x) == None
  {
    var db' := db.(forms := db.forms[id := x]);
    assert FormActivitiesExist(db'.forms, db'.activities);
    assert id in db'.forms;
  }

  lemma InsertFormIff(db: Db, id: Uuid, x: FormActivity)
    requires Consistent(db)
    ensures FormViolation(db, id, x) == None <==> id !in db.forms && Consistent(db.(forms := db.forms[id := x]))
  {
    if FormViolation(db, id, x) == None { InsertFormKeeps(db, id, x); }
    if id !in db.forms && Consistent(db.(forms := db.forms[id := x])) { InsertFormNeeds(db, id, x); }
  }

  /** InsertFormIff, as InsertRow sees it. */
  lemma InsertFormAsRow(db: Db, id: Uuid, r: Row)
    requires r.FormActivityRow?
    ensures Put(db, id, r) == db.(forms := db.forms[id := r.form]) && Keys(db, TableOf(r)) == db.forms.Keys
    ensures InsertRow(db, id, r).Success? <==> FormViolation(db, id, r.form) == None
    ensures InsertRow(db, id, r).Success? ==> InsertRow(db, id, r).value == Put(db, id, r)
  {
  }

  lemma InsertTemplateKeepsReferences(db: Db, id: Uuid, x: AiTemplate)
    requires ReferencesExist(db) && TemplateViolation(db, id, x) == None
    ensures ReferencesExist(db.(templates := db.templates[id := x]))
  {
    var db' := db.(templates := db.templates[id := x]);
    assert OwnersExist(db');
  }

  lemma InsertTemplateKeeps(db: Db, id: Uuid, x: AiTemplate)
    requires Consistent(db) && TemplateViolation(db, id, x) == None
    ensures Consistent(db.(templates := db.templates[id := x]))
  {
    InsertTemplateKeepsReferences(db, id, x);
  }

  lemma InsertTemplateNeeds(db: Db, id: Uuid, x: AiTemplate)
    requires id !in db.templates && Consistent(db.(templates := db.templates[id := x]))
    ensures TemplateViolation(db, id, x) == None
  {
    var db' := db.(templates := db.templates[id := x]);
    assert TemplateOwnersExist(db'.templates, db'.users);
    assert id in db'.templates;
  }

  lemma InsertTemplateIff(db: Db, id: Uuid, x: AiTemplate)
    requires Consistent(db)
    ensures TemplateViolation(db, id, x) == None <==> id !in db.templates && Consistent(db.(templates := db.templates[id := x]))
  {
    if TemplateViolation(db, id, x) == None { InsertTemplateKeeps(db, id, x); }
    if id !in db.templates && Consistent(db.(templates := db.templates[id := x])) { InsertTemplateNeeds(db, id, x); }
  }

  /** InsertTemplateIff, as InsertRow sees it. */
  lemma InsertTemplateAsRow(db: Db, id: Uuid, r: Row)
    requires r.AiTemplateRow?
    ensures Put(db, id, r) == db.(templates := db.templates[id := r.template]) && Keys(db, TableOf(r)) == db.templates.Keys
    ensures InsertRow(db, id, r).Success? <==> TemplateViolation(db, id, r.template) == None
    ensures InsertRow(db, id, r).Success? ==> InsertRow(db, id, r).value == Put(db, id, r)
  {
  }

  lemma InsertGenerationKeepsReferences(db: Db, id: Uuid, x: AiGeneration)
    requires ReferencesExist(db) && GenerationViolation(db, id, x) == None
    ensures ReferencesExist(db.(generations := db.generations[id := x]))
  {
    var db' := db.(generations := db.generations[id := x]);
    assert OwnersExist(db');
  }

  lemma InsertGenerationKeeps(db: Db, id: Uuid, x: AiGeneration)
    requires Consistent(db) && GenerationViolation(db, id, x) == None
    ensures Consistent(db.(generations := db.generations[id := x]))
  {
    InsertGenerationKeepsReferences(db, id, x);
  }

  lemma InsertGenerationNeeds(db: Db, id: Uuid, x: AiGeneration)
    requires id !in db.generations && Consistent(db.(generations := db.generations[id := x]))
    ensures GenerationViolation(db, id, x) == None
  {
    var db' := db.(generations := db.generations[id := x]);
    assert GenerationOwnersExist(db'.generations, db'.users) && GenerationTemplatesExist(db'.generations, db'.templates);
    assert id in db'.generations;
  }

  lemma InsertGenerationIff(db: Db, id: Uuid, x: AiGeneration)
    requires Consistent(db)
    ensures GenerationViolation(db, id, x) == None <==> id !in db.generations && Consistent(db.(generations := db.generations[id := x]))
  {
    if GenerationViolation(db, id, x) == None { InsertGenerationKeeps(db, id, x); }
    if id !in db.generations && Consistent(db.(generations := db.generations[id := x])) { InsertGenerationNeeds(db, id, x); }
  }

  /** InsertGenerationIff, as InsertRow sees it. */
  lemma InsertGenerationAsRow(db: Db, id: Uuid, r: Row)
    requires r.AiGenerationRow?
    ensures Put(db, id, r) == db.(generations := db.generations[id := r.generation]) && Keys(db, TableOf(r)) == db.generations.Keys
    ensures InsertRow(db, id, r).Success? <==> GenerationViolation(db, id, r.generation) == None
    ensures InsertRow(db, id, r).Success? ==> InsertRow(db, id, r).value == Put(db, id, r)
  {
  }

  lemma InsertAuditLogKeepsReferences(db: Db, id: Uuid, x: AuditLog)
    requires ReferencesExist(db) && AuditLogViolation(db, id, x) == None
    ensures ReferencesExist(db.(auditLogs := db.auditLogs[id := x]))
  {
    var db' := db.(auditLogs := db.auditLogs[id := x]);
    assert OwnersExist(db');
  }

  lemma InsertAuditLogKeeps(db: Db, id: Uuid, x: AuditLog)
    requires Consistent(db) && AuditLogViolation(db, id, x) == None
    ensures Consistent(db.(auditLogs := db.auditLogs[id := x]))
  {
    InsertAuditLogKeepsReferences(db, id, x);
  }

  lemma InsertAuditLogNeeds(db: Db, id: Uuid, x: AuditLog)
    requires id !in db.auditLogs && Consistent(db.(auditLogs := db.auditLogs[id := x]))
    ensures AuditLogViolation(db, id, x) == None
  {
    var db' := db.(auditLogs := db.auditLogs[id := x]);
    assert AuditUsersExist(db'.auditLogs, db'.users);
    assert id in db'.auditLogs;
  }

  lemma InsertAuditLogIff(db: Db, id: Uuid, x: AuditLog)
    requires Consistent(db)
    ensures AuditLogViolation(db, id, x) == None <==> id !in db.auditLogs && Consistent(db.(auditLogs := db.auditLogs[id := x]))
  {
    if AuditLogViolation(db, id, x) == None { InsertAuditLogKeeps(db, id, x); }
    if id !in db.auditLogs && Consistent(db.(auditLogs := db.auditLogs[id := x])) { InsertAuditLogNeeds(db, id, x); }
  }

  /** InsertAuditLogIff, as InsertRow sees it. */
  lemma InsertAuditLogAsRow(db: Db, id: Uuid, r: Row)
    requires r.AuditLogRow?
    ensures Put(db, id, r) == db.(auditLogs := db.auditLogs[id := r.auditLog]) && Keys(db, TableOf(r)) == db.auditLogs.Keys
    ensures InsertRow(db, id, r).Success? <==> AuditLogViolation(db, id, r.auditLog) == None
    ensures InsertRow(db, id, r).Success? ==> InsertRow(db, id, r).value == Put(db, id, r)
  {
  }

  /** No integrity rule mentions system_logs. */
  lemma SystemLogsFree(db: Db, m: map<Uuid, SystemLog>)
    requires Consistent(db)
    ensures Consistent(db.(systemLogs := m))
  {
    var db' := db.(systemLogs := m);
    assert OwnersExist(db');
  }

  /** A system log row needs only a new id. */
  lemma InsertSystemLogRowIff(db: Db, id: Uuid, r: Row)
    requires r.SystemLogRow?
    requires Consistent(db)
    ensures InsertRow(db, id, r).Success? <==> id !in Keys(db, TableOf(r)) && Consistent(Put(db, id, r))
    ensures InsertRow(db, id, r).Success? ==> InsertRow(db, id, r).value == Put(db, id, r)
  {
    SystemLogsFree(db, db.systemLogs[id := r.systemLog]);
    assert Put(db, id, r) == db.(systemLogs := db.systemLogs[id := r.systemLog]);
  }

  lemma InsertUserRowIff(db: Db, id: Uuid, r: Row)
    requires r.UserRow?
    requires Consistent(db)
    ensures InsertRow(db, id, r).Success? <==> id !in Keys(db, TableOf(r)) && Consistent(Put(db, id, r))
    ensures InsertRow(db, id, r).Success? ==> InsertRow(db, id, r).value == Put(db, id, r)
  {
    InsertUserIff(db, id, r.user);
    InsertUserAsRow(db, id, r);
  }

  lemma InsertSubscriptionRowIff(db: Db, id: Uuid, r: Row)
    requires r.SubscriptionRow?
    requires Consistent(db)
    ensures InsertRow(db, id, r).Success? <==> id !in Keys(db, TableOf(r)) && Consistent(Put(db, id, r))
    ensures InsertRow(db, id, r).Success? ==> InsertRow(db, id, r).value == Put(db, id, r)
  {
    InsertSubscriptionIff(db, id, r.subscription);
    InsertSubscriptionAsRow(db, id, r);
  }

  lemma InsertUsageMetricRowIff(db: Db, id: Uuid, r: Row)
    requires r.UsageMetricRow?
    requires Consistent(db)
    ensures InsertRow(db, id, r).Success? <==> id !in Keys(db, TableOf(r)) && Consistent(Put(db, id, r))
    ensures InsertRow(db, id, r).Success? ==> InsertRow(db, id, r).value == Put(db, id, r)
  {
    InsertUsageMetricIff(db, id, r.usageMetric);
    InsertUsageMetricAsRow(db, id, r);
  }

  lemma InsertCompanyRowIff(db: Db, id: Uuid, r: Row)
    requires r.CompanyRow?
    requires Consistent(db)
    ensures InsertRow(db, id, r).Success? <==> id !in Keys(db, TableOf(r)) && Consistent(Put(db, id, r))
    ensures InsertRow(db, id, r).Success? ==> InsertRow(db, id, r).value == Put(db, id, r)
  {
    InsertCompanyIff(db, id, r.company);
    InsertCompanyAsRow(db, id, r);
  }

  lemma InsertContactRowIff(db: Db, id: Uuid, r: Row)
    requires r.CompanyContactRow?
    requires Consistent(db)
    ensures InsertRow(db, id, r).Success? <==> id !in Keys(db, TableOf(r)) && Consistent(Put(db, id, r))
    ensures InsertRow(db, id, r).Success? ==> InsertRow(db, id, r).value == Put(db, id, r)
  {
    InsertContactIff(db, id, r.contact);
    InsertContactAsRow(db, id, r);
  }

  lemma InsertListRowIff(db: Db, id: Uuid, r: Row)
    requires r.CompanyListRow?
    requires Consistent(db)
    ensures InsertRow(db, id, r).Success? <==> id !in Keys(db, TableOf(r)) && Consistent(Put(db, id, r))
    ensures InsertRow(db, id, r).Success? ==> InsertRow(db, id, r).value == Put(db, id, r)
  {
    InsertListIff(db, id, r.list);
    InsertListAsRow(db, id, r);
  }

  lemma InsertListItemRowIff(db: Db, id: Uuid, r: Row)
    requires r.CompanyListItemRow?
    requires Consistent(db)
    ensures InsertRow(db, id, r).Success? <==> id !in Keys(db, TableOf(r)) && Consistent(Put(db, id, r))
    ensures InsertRow(db, id, r).Success? ==> InsertRow(db, id, r).value == Put(db, id, r)
  {
    InsertListItemIff(db, id, r.listItem);
    InsertListItemAsRow(db, id, r);
  }

  lemma InsertCampaignRowIff(db: Db, id: Uuid, r: Row)
    requires r.CampaignRow?
    requires Consistent(db)
    ensures InsertRow(db, id, r).Success? <==> id !in Keys(db, TableOf(r)) && Consistent(Put(db, id, r))
    ensures InsertRow(db, id, r).Success? ==> InsertRow(db, id, r).value == Put(db, id, r)
  {
    InsertCampaignIff(db, id, r.campaign);
    InsertCampaignAsRow(db, id, r);
  }

  lemma InsertActivityRowIff(db: Db, id: Uuid, r: Row)
    requires r.SalesActivityRow?
    requires Consistent(db)
    ensures InsertRow(db, id, r).Success? <==> id !in Keys(db, TableOf(r)) && Consistent(Put(db, id, r))
    ensures InsertRow(db, id, r).Success? ==> InsertRow(db, id, r).value == Put(db, id, r)
  {
    InsertActivityIff(db, id, r.activity);
    InsertActivityAsRow(db, id, r);
  }

  lemma InsertEmailRowIff(db: Db, id: Uuid, r: Row)
    requires r.EmailActivityRow?
    requires Consistent(db)
    ensures InsertRow(db, id, r).Success? <==> id !in Keys(db, TableOf(r)) && Consistent(Put(db, id, r))
    ensures InsertRow(db, id, r).Success? ==> InsertRow(db, id, r).value == Put(db, id, r)
  {
    InsertEmailIff(db, id, r.email);
    InsertEmailAsRow(db, id, r);
  }

  lemma InsertFormRowIff(db: Db, id: Uuid, r: Row)
    requires r.FormActivityRow?
    requires Consistent(db)
    ensures InsertRow(db, id, r).Success? <==> id !in Keys(db, TableOf(r)) && Consistent(Put(db, id, r))
    ensures InsertRow(db, id, r).Success? ==> InsertRow(db, id, r).value == Put(db, id, r)
  {
    InsertFormIff(db, id, r.form);
    InsertFormAsRow(db, id, r);
  }

  lemma InsertTemplateRowIff(db: Db, id: Uuid, r: Row)
    requires r.AiTemplateRow?
    requires Consistent(db)
    ensures InsertRow(db, id, r).Success? <==> id !in Keys(db, TableOf(r)) && Consistent(Put(db, id, r))
    ensures InsertRow(db, id, r).Success? ==> InsertRow(db, id, r).value == Put(db, id, r)
  {
    InsertTemplateIff(db, id, r.template);
    InsertTemplateAsRow(db, id, r);
  }

  lemma InsertGenerationRowIff(db: Db, id: Uuid, r: Row)
    requires r.AiGenerationRow?
    requires Consistent(db)
    ensures InsertRow(db, id, r).Success? <==> id !in Keys(db, TableOf(r)) && Consistent(Put(db, id, r))
    ensures InsertRow(db, id, r).Success? ==> InsertRow(db, id, r).value == Put(db, id, r)
  {
    InsertGenerationIff(db, id, r.generation);
    InsertGenerationAsRow(db, id, r);
  }

  lemma InsertAuditLogRowIff(db: Db, id: Uuid, r: Row)
    requires r.AuditLogRow?
    requires Consistent(db)
    ensures InsertRow(db, id, r).Success? <==> id !in Keys(db, TableOf(r)) && Consistent(Put(db, id, r))
    ensures InsertRow(db, id, r).Success? ==> InsertRow(db, id, r).value == Put(db, id, r)
  {
    InsertAuditLogIff(db, id, r.auditLog);
    InsertAuditLogAsRow(db, id, r);
  }

  /** A row is stored exactly when storing it keeps every integrity rule and
      its id is new to its table. */
  lemma InsertRowIff(db: Db, id: Uuid, r: Row)
    requires Consistent(db)
    ensures InsertRow(db, id, r).Success? <==> id !in Keys(db, TableOf(r)) && Consistent(Put(db, id, r))
    ensures InsertRow(db, id, r).Success? ==> InsertRow(db, id, r).value == Put(db, id, r)
  {
    match r
    case UserRow(_) => InsertUserRowIff(db, id, r);
    case SubscriptionRow(_) => InsertSubscriptionRowIff(db, id, r);
    case UsageMetricRow(_) => InsertUsageMetricRowIff(db, id, r);
    case CompanyRow(_) => InsertCompanyRowIff(db, id, r);
    case CompanyContactRow(_) => InsertContactRowIff(db, id, r);
    case CompanyListRow(_) => InsertListRowIff(db, id, r);
    case CompanyListItemRow(_) => InsertListItemRowIff(db, id, r);
    case CampaignRow(_) => InsertCampaignRowIff(db, id, r);
    case SalesActivityRow(_) => InsertActivityRowIff(db, id, r);
    case EmailActivityRow(_) => InsertEmailRowIff(db, id, r);
    case FormActivityRow(_) => InsertFormRowIff(db, id, r);
    case AiTemplateRow(_) => InsertTemplateRowIff(db, id, r);
    case AiGenerationRow(_) => InsertGenerationRowIff(db, id, r);
    case AuditLogRow(_) => InsertAuditLogRowIff(db, id, r);
    case SystemLogRow(_) => InsertSystemLogRowIff(db, id, r);
  }

  /** Storing a row adds its id to its own table and removes no id from any
      table. */
  lemma PutKeys(db: Db, id: Uuid, r: Row, t: Table)
    ensures Keys(db, t) <= Keys(Put(db, id, r), t)
    ensures id in Keys(Put(db, id, r), TableOf(r))
  {
  }

  /** A multi-row INSERT that succeeds keeps the database consistent. */
  lemma {:induction false} InsertRowsPreservesConsistent(db: Db, rows: seq<(Uuid, Row)>)
    requires Consistent(db)
    ensures InsertRows(db, rows).Success? ==> Consistent(InsertRows(db, rows).value)
    decreases |rows|
  {
    if rows != [] {
      InsertRowIff(db, rows[0].0, rows[0].1);
      var first := InsertRow(db, rows[0].0, rows[0].1);
      if first.Success? {
        InsertRowsPreservesConsistent(first.value, rows[1..]);
      }
    }
  }

  /** A multi-row INSERT removes nothing: every id already present is still
      present afterwards. */
  lemma {:induction false} InsertRowsKeepsKeys(db: Db, rows: seq<(Uuid, Row)>, t: Table, k: Uuid)
    requires k in Keys(db, t)
    ensures InsertRows(db, rows).Success? ==> k in Keys(InsertRows(db, rows).value, t)
    decreases |rows|
  {
    if rows != [] {
      var first := InsertRow(db, rows[0].0, rows[0].1);
      if first.Success? {
        PutKeys(db, rows[0].0, rows[0].1, t);
        InsertRowsKeepsKeys(first.value, rows[1..], t, k);
      }
    }
  }

  /** The first step of a multi-row INSERT whose first row is accepted. */
  lemma InsertRowsFirstStep(db: Db, rows: seq<(Uuid, Row)>)
    requires rows != [] && InsertRow(db, rows[0].0, rows[0].1).Success?
    ensures InsertRow(db, rows[0].0, rows[0].1).value == Put(db, rows[0].0, rows[0].1)
    ensures InsertRows(db, rows) == InsertRows(Put(db, rows[0].0, rows[0].1), rows[1..])
  {
  }

  /** Storing a row leaves every other table as it was. */
  lemma PutOtherTables(db: Db, id: Uuid, r: Row)
    ensures !r.UserRow? ==> Put(db, id, r).users == db.users
    ensures !r.SubscriptionRow? ==> Put(db, id, r).subscriptions == db.subscriptions
    ensures !r.UsageMetricRow? ==> Put(db, id, r).usageMetrics == db.usageMetrics
    ensures !r.CompanyRow? ==> Put(db, id, r).companies == db.companies
    ensures !r.CompanyContactRow? ==> Put(db, id, r).contacts == db.contacts
    ensures !r.CompanyListRow? ==> Put(db, id, r).lists == db.lists
    ensures !r.CompanyListItemRow? ==> Put(db, id, r).listItems == db.listItems
    ensures !r.CampaignRow? ==> Put(db, id, r).campaigns == db.campaigns
    ensures !r.SalesActivityRow? ==> Put(db, id, r).activities == db.activities
    ensures !r.EmailActivityRow? ==> Put(db, id, r).emails == db.emails
    ensures !r.FormActivityRow? ==> Put(db, id, r).forms == db.forms
    ensures !r.AiTemplateRow? ==> Put(db, id, r).templates == db.templates
    ensures !r.AiGenerationRow? ==> Put(db, id, r).generations == db.generations
    ensures !r.AuditLogRow? ==> Put(db, id, r).auditLogs == db.auditLogs
    ensures !r.SystemLogRow? ==> Put(db, id, r).systemLogs == db.systemLogs
  {
  }

  /** A stored row can be read back from its place. */
  lemma PutLookupSame(db: Db, id: Uuid, r: Row)
    ensures Lookup(Put(db, id, r), TableOf(r), id) == Some(r)
  {
  }

  /** Storing a row changes no other row of its own table. */
  lemma PutLookupOtherId(db: Db, id: Uuid, r: Row, k: Uuid)
    requires k != id
    ensures Lookup(Put(db, id, r), TableOf(r), k) == Lookup(db, TableOf(r), k)
  {
  }

  /** Storing a row changes no other table. */
  lemma PutLookupOtherTable(db: Db, id: Uuid, r: Row, t: Table, k: Uuid)
    requires t != TableOf(r)
    ensures Lookup(Put(db, id, r), t, k) == Lookup(db, t, k)
  {
    PutOtherTables(db, id, r);
  }

  /** A row is accepted only under an id its table does not have yet. */
  lemma InsertRowNeedsFreshId(db: Db, id: Uuid, r: Row)
    ensures InsertRow(db, id, r).Success? ==> id !in Keys(db, TableOf(r))
  {
    match r
    case UserRow(_) => assert Keys(db, TableOf(r)) == db.users.Keys;
    case SubscriptionRow(_) => assert Keys(db, TableOf(r)) == db.subscriptions.Keys;
    case UsageMetricRow(_) => assert Keys(db, TableOf(r)) == db.usageMetrics.Keys;
    case CompanyRow(_) => assert Keys(db, TableOf(r)) == db.companies.Keys;
    case CompanyContactRow(_) => assert Keys(db, TableOf(r)) == db.contacts.Keys;
    case CompanyListRow(_) => assert Keys(db, TableOf(r)) == db.lists.Keys;
    case CompanyListItemRow(_) => assert Keys(db, TableOf(r)) == db.listItems.Keys;
    case CampaignRow(_) => assert Keys(db, TableOf(r)) == db.campaigns.Keys;
    case SalesActivityRow(_) => assert Keys(db, TableOf(r)) == db.activities.Keys;
    case EmailActivityRow(_) => assert Keys(db, TableOf(r)) == db.emails.Keys;
    case FormActivityRow(_) => assert Keys(db, TableOf(r)) == db.forms.Keys;
    case AiTemplateRow(_) => assert Keys(db, TableOf(r)) == db.templates.Keys;
    case AiGenerationRow(_) => assert Keys(db, TableOf(r)) == db.generations.Keys;
    case AuditLogRow(_) => assert Keys(db, TableOf(r)) == db.auditLogs.Keys;
    case SystemLogRow(_) => assert Keys(db, TableOf(r)) == db.systemLogs.Keys;
  }

  /** A multi-row INSERT neither removes nor changes a row already present. */
  lemma {:induction false} InsertRowsKeepsRows(db: Db, rows: seq<(Uuid, Row)>, t: Table, k: Uuid)
    requires k in Keys(db, t)
    ensures InsertRows(db, rows).Success? ==> Lookup(InsertRows(db, rows).value, t, k) == Lookup(db, t, k)
    decreases |rows|
  {
    if rows != [] && InsertRow(db, rows[0].0, rows[0].1).Success? {
      InsertRowsFirstStep(db, rows);
      InsertRowNeedsFreshId(db, rows[0].0, rows[0].1);
      var next := Put(db, rows[0].0, rows[0].1);
      if t == TableOf(rows[0].1) {
        PutLookupOtherId(db, rows[0].0, rows[0].1, k);
      } else {
        PutLookupOtherTable(db, rows[0].0, rows[0].1, t, k);
      }
      PutKeys(db, rows[0].0, rows[0].1, t);
      InsertRowsKeepsRows(next, rows[1..], t, k);
    }
  }

  /** A multi-row INSERT that succeeds has stored every one of its rows,
      each in its own table under its own id. */
  lemma {:induction false} InsertRowsStoresAll(db: Db, rows: seq<(Uuid, Row)>, i: nat)
    requires i < |rows|
    ensures InsertRows(db, rows).Success? ==>
      Lookup(InsertRows(db, rows).value, TableOf(rows[i].1), rows[i].0) == Some(rows[i].1)
    decreases |rows|
  {
    if InsertRow(db, rows[0].0, rows[0].1).Success? {
      InsertRowsFirstStep(db, rows);
      var next := Put(db, rows[0].0, rows[0].1);
      if i == 0 {
        PutLookupSame(db, rows[0].0, rows[0].1);
        PutKeys(db, rows[0].0, rows[0].1, TableOf(rows[0].1));
        InsertRowsKeepsRows(next, rows[1..], TableOf(rows[0].1), rows[0].0);
      } else {
        assert rows[1..][i - 1] == rows[i];
        InsertRowsStoresAll(next, rows[1..], i - 1);
      }
    }
  }
}
