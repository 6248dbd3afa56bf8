/**
  What a transaction scoped to one tenant leaves alone: every other tenant's
  rows, and every generated id already handed out.
 */
module Isolation {
  import opened Prelude
  import opened Connector
  import opened Schema
  import opened Views

  // ---- the rows of the other tenants ----

  function OtherWorks(ws: map<WorkKey, WorkRow>, tenant: Tenant): map<WorkKey, WorkRow> {
    map k | k in ws && k.tenant != tenant :: ws[k]
  }

  function OtherReviews(rs: map<SourceKey, ReviewRow>, tenant: Tenant): map<SourceKey, ReviewRow> {
    map k | k in rs && k.tenant != tenant :: rs[k]
  }

  function OtherChecks(cs: map<SourceKey, CheckRow>, tenant: Tenant): map<SourceKey, CheckRow> {
    map k | k in cs && k.tenant != tenant :: cs[k]
  }

  function OtherContributors(cs: map<Id, ContributorRow>, tenant: Tenant): map<Id, ContributorRow> {
    map i | i in cs && cs[i].tenant != tenant :: cs[i]
  }

  function OtherLinks(ls: map<PersonKey, LinkRow>, tenant: Tenant): map<PersonKey, LinkRow> {
    map k | k in ls && k.tenant != tenant :: ls[k]
  }

  function OtherDeliveries(ds: map<DeliveryKey, string>, tenant: Tenant): map<DeliveryKey, string> {
    map k | k in ds && k.tenant != tenant :: ds[k]
  }

  function OtherOutbox(rows: seq<OutboxRow>, tenant: Tenant): seq<OutboxRow> {
    if rows == [] then []
    else
      var last := rows[|rows| - 1];
      OtherOutbox(rows[..|rows| - 1], tenant) + if last.event.tenant == tenant then [] else [last]
  }

  /** Every row that row-level security hides from a session scoped to `tenant`. */
  ghost predicate OthersUntouched(tenant: Tenant, t: Tables, t': Tables) {
    && OtherWorks(t'.works, tenant) == OtherWorks(t.works, tenant)
    && OtherReviews(t'.reviews, tenant) == OtherReviews(t.reviews, tenant)
    && OtherChecks(t'.checks, tenant) == OtherChecks(t.checks, tenant)
    && OtherContributors(t'.contributors, tenant) == OtherContributors(t.contributors, tenant)
    && OtherLinks(t'.links, tenant) == OtherLinks(t.links, tenant)
    && OtherDeliveries(t'.deliveries, tenant) == OtherDeliveries(t.deliveries, tenant)
    && OtherOutbox(t'.outbox, tenant) == OtherOutbox(t.outbox, tenant)
  }

  /** What every statement of a session scoped to `tenant` keeps. */
  ghost predicate Confined(tenant: Tenant, t: Tables, t': Tables) {
    OthersUntouched(tenant, t, t') && KeepsIds(t, t') && (DrawnBelow(t) ==> DrawnBelow(t'))
  }

  lemma ConfinedTransitive(tenant: Tenant, t: Tables, t': Tables, t'': Tables)
    requires Confined(tenant, t, t') && Confined(tenant, t', t'')
    ensures Confined(tenant, t, t'')
  {
    hide OtherWorks, OtherReviews, OtherChecks, OtherContributors, OtherLinks, OtherDeliveries, OtherOutbox;
    KeepsIdsTransitive(t, t', t'');
    hide KeepsIds;
  }

  lemma ConfinedReflexive(tenant: Tenant, t: Tables)
    ensures Confined(tenant, t, t)
  {
    KeepsIdsReflexive(t);
  }

  // ---- one lemma a statement ----

  lemma EnqueueConfined(t: Tables, e: Event)
    ensures Confined(e.tenant, t, Enqueue(t, e))
  {
    EnqueueKeepsIds(t, e);
    hide KeepsIds;
    var t' := Enqueue(t, e);
    assert t'.outbox[..|t'.outbox| - 1] == t.outbox;
  }

  lemma OwnWork(ws: map<WorkKey, WorkRow>, key: WorkKey, row: WorkRow)
    ensures OtherWorks(ws[key := row], key.tenant) == OtherWorks(ws, key.tenant)
  {
  }

  lemma OwnReview(rs: map<SourceKey, ReviewRow>, key: SourceKey, row: ReviewRow)
    ensures OtherReviews(rs[key := row], key.tenant) == OtherReviews(rs, key.tenant)
  {
  }

  lemma OwnCheck(cs: map<SourceKey, CheckRow>, key: SourceKey, row: CheckRow)
    ensures OtherChecks(cs[key := row], key.tenant) == OtherChecks(cs, key.tenant)
  {
  }

  lemma OwnContributor(cs: map<Id, ContributorRow>, id: Id, row: ContributorRow)
    requires id !in cs
    ensures OtherContributors(cs[id := row], row.tenant) == OtherContributors(cs, row.tenant)
  {
  }

  lemma OwnLink(ls: map<PersonKey, LinkRow>, key: PersonKey, row: LinkRow)
    ensures OtherLinks(ls[key := row], key.tenant) == OtherLinks(ls, key.tenant)
  {
  }

  lemma EnsureWorkConfined(t: Tables, tenant: Tenant, wi: WorkItem, now: Time)
    ensures Confined(tenant, t, EnsureWork(t, tenant, wi, now))
  {
    hide KeepsIds, OtherWorks, OtherReviews, OtherChecks, OtherContributors, OtherLinks, OtherDeliveries, OtherOutbox;
    WriteWorkKeepsIds(t, tenant, wi, now);
    OwnWork(t.works, KeyOf(tenant, wi), WorkRow(t.nextId, Columns(wi), now));
  }

  lemma UpsertWorkConfined(t: Tables, tenant: Tenant, wi: WorkItem, now: Time)
    ensures Confined(tenant, t, UpsertWork(t, tenant, wi, now))
  {
    hide KeepsIds, OtherWorks, OtherReviews, OtherChecks, OtherContributors, OtherLinks, OtherDeliveries, OtherOutbox;
    WriteWorkKeepsIds(t, tenant, wi, now);
    var key := KeyOf(tenant, wi);
    if key in t.works {
      OwnWork(t.works, key, WorkRow(t.works[key].id, Refreshed(t.works[key].cols, Columns(wi)), now));
    } else {
      OwnWork(t.works, key, WorkRow(t.nextId, Columns(wi), now));
    }
  }

  lemma ResolveConfined(t: Tables, tenant: Tenant, login: string)
    requires DrawnBelow(t)
    ensures Confined(tenant, t, ResolveContributor(t, tenant, login).0)
  {
    hide KeepsIds, OtherWorks, OtherReviews, OtherChecks, OtherContributors, OtherLinks, OtherDeliveries, OtherOutbox;
    ResolveKeepsIds(t, tenant, login);
    OwnContributor(t.contributors, t.nextId, ContributorRow(tenant, Person(login, IsBot(login))));
    OwnLink(t.links, LinkKey(tenant, login), LinkRow(t.nextId + 1, t.nextId));
  }

  lemma UpsertReviewConfined(t: Tables, tenant: Tenant, workItemId: Id, reviewerId: Id, rv: Review)
    ensures Confined(tenant, t, UpsertReview(t, tenant, workItemId, reviewerId, rv))
  {
    hide KeepsIds, OtherWorks, OtherReviews, OtherChecks, OtherContributors, OtherLinks, OtherDeliveries, OtherOutbox;
    UpsertReviewKeepsIds(t, tenant, workItemId, reviewerId, rv);
    var key := SourceKey(tenant, rv.sourceId);
    var cols := ReviewCols(rv.state, rv.commentCount, rv.submittedAt);
    if key in t.reviews {
      OwnReview(t.reviews, key, t.reviews[key].(cols := cols));
    } else {
      OwnReview(t.reviews, key, ReviewRow(t.nextId, workItemId, reviewerId, cols));
    }
  }

  lemma UpsertCheckConfined(t: Tables, tenant: Tenant, cr: CheckRun)
    ensures Confined(tenant, t, UpsertCheck(t, tenant, cr))
  {
    hide KeepsIds, OtherWorks, OtherReviews, OtherChecks, OtherContributors, OtherLinks, OtherDeliveries, OtherOutbox;
    UpsertCheckKeepsIds(t, tenant, cr);
    var key := SourceKey(tenant, cr.sourceId);
    if key in t.checks {
      OwnCheck(t.checks, key, CheckRow(t.checks[key].id, RefreshedCheck(t.checks[key].cols, CheckColumns(cr))));
    } else {
      OwnCheck(t.checks, key, CheckRow(t.nextId, CheckColumns(cr)));
    }
  }

  lemma MarkConfined(t: Tables, tenant: Tenant, deliveryId: string, eventType: string)
    ensures Confined(tenant, t, MarkDelivery(t, tenant, deliveryId, eventType))
  {
    KeepsIdsReflexive(t);
    hide WorkIdsKept, LinksKept, ReviewIdsKept, CheckIdsKept;
    assert OtherDeliveries(MarkDelivery(t, tenant, deliveryId, eventType).deliveries, tenant)
        == OtherDeliveries(t.deliveries, tenant);
  }

  // ---- the loops of persist ----

  lemma PersistWorkConfined(t: Tables, tenant: Tenant, wi: WorkItem, now: Time)
    ensures Confined(tenant, t, PersistWork(t, tenant, wi, now))
  {
    hide Confined, EnsureWork, UpsertWork, Enqueue;
    EnsureWorkConfined(t, tenant, wi, now);
    UpsertWorkConfined(t, tenant, wi, now);
    if !wi.event.NoEvent? {
      var t1 := UpsertWork(t, tenant, wi, now);
      EnqueueConfined(t1, WorkEvent(tenant, wi));
      ConfinedTransitive(tenant, t, t1, Enqueue(t1, WorkEvent(tenant, wi)));
    }
  }

  lemma PersistReviewConfined(t: Tables, tenant: Tenant, rv: Review, workItemId: Id)
    requires DrawnBelow(t)
    ensures Confined(tenant, t, PersistReview(t, tenant, rv, workItemId))
  {
    hide Confined, ResolveContributor, UpsertReview, Enqueue;
    ConfinedReflexive(tenant, t);
    if rv.reviewerLogin != "" {
      var resolved := ResolveContributor(t, tenant, rv.reviewerLogin);
      var t2 := UpsertReview(resolved.0, tenant, workItemId, resolved.1, rv);
      ResolveConfined(t, tenant, rv.reviewerLogin);
      UpsertReviewConfined(resolved.0, tenant, workItemId, resolved.1, rv);
      EnqueueConfined(t2, ReviewEvent(tenant, rv));
      ConfinedTransitive(tenant, t, resolved.0, t2);
      ConfinedTransitive(tenant, t, t2, Enqueue(t2, ReviewEvent(tenant, rv)));
    }
  }

  lemma Still(tenant: Tenant, t: Tables, t': Tables)
    requires Confined(tenant, t, t') && DrawnBelow(t)
    ensures DrawnBelow(t')
  {
    hide OthersUntouched, KeepsIds, DrawnBelow;
  }

  lemma {:induction false} PersistWorksConfined(t: Tables, tenant: Tenant, items: seq<WorkItem>, ids: NodeIds,
      now: Time)
    ensures Confined(tenant, t, PersistWorks(t, tenant, items, ids, now).0)
    decreases |items|
  {
    hide Confined, PersistWork;
    if items == [] {
      ConfinedReflexive(tenant, t);
    } else {
      var t1 := PersistWork(t, tenant, items[0], now);
      var ids1 := ids[items[0].nodeId := t1.works[KeyOf(tenant, items[0])].id];
      PersistWorkConfined(t, tenant, items[0], now);
      PersistWorksConfined(t1, tenant, items[1..], ids1, now);
      ConfinedTransitive(tenant, t, t1, PersistWorks(t1, tenant, items[1..], ids1, now).0);
    }
  }

  lemma {:induction false} PersistReviewsConfined(t: Tables, tenant: Tenant, reviews: seq<Review>, ids: NodeIds)
    requires DrawnBelow(t)
    ensures var r := PersistReviews(t, tenant, reviews, ids); r.Ok? ==> Confined(tenant, t, r.value)
    decreases |reviews|
  {
    hide Confined, PersistReview, DrawnBelow;
    if reviews == [] {
      ConfinedReflexive(tenant, t);
    } else if reviews[0].prNodeId in ids {
      var t1 := PersistReview(t, tenant, reviews[0], ids[reviews[0].prNodeId]);
      PersistReviewConfined(t, tenant, reviews[0], ids[reviews[0].prNodeId]);
      Still(tenant, t, t1);
      PersistReviewsConfined(t1, tenant, reviews[1..], ids);
      var r := PersistReviews(t1, tenant, reviews[1..], ids);
      if r.Ok? {
        ConfinedTransitive(tenant, t, t1, r.value);
      }
    }
  }

  lemma {:induction false} PersistChecksConfined(t: Tables, tenant: Tenant, checks: seq<CheckRun>)
    ensures Confined(tenant, t, PersistChecks(t, tenant, checks))
    decreases |checks|
  {
    hide Confined, UpsertCheck, Enqueue;
    if checks == [] {
      ConfinedReflexive(tenant, t);
    } else {
      var t1 := UpsertCheck(t, tenant, checks[0]);
      var t2 := Enqueue(t1, CheckEvent(tenant, checks[0]));
      UpsertCheckConfined(t, tenant, checks[0]);
      EnqueueConfined(t1, CheckEvent(tenant, checks[0]));
      PersistChecksConfined(t2, tenant, checks[1..]);
      ConfinedTransitive(tenant, t, t1, t2);
      ConfinedTransitive(tenant, t, t2, PersistChecks(t2, tenant, checks[1..]));
    }
  }

  lemma {:induction false} PersistCommentsConfined(t: Tables, tenant: Tenant, comments: seq<Comment>)
    ensures Confined(tenant, t, PersistComments(t, tenant, comments))
    decreases |comments|
  {
    hide Confined, Enqueue;
    if comments == [] {
      ConfinedReflexive(tenant, t);
    } else {
      var t1 := Enqueue(t, CommentEvent(tenant, comments[0]));
      EnqueueConfined(t, CommentEvent(tenant, comments[0]));
      PersistCommentsConfined(t1, tenant, comments[1..]);
      ConfinedTransitive(tenant, t, t1, PersistComments(t1, tenant, comments[1..]));
    }
  }

  lemma PersistConfined(t: Tables, tenant: Tenant, n: Normalized, now: Time)
    requires DrawnBelow(t)
    ensures var r := Persist(t, tenant, n, now); r.Ok? ==> Confined(tenant, t, r.value)
  {
    hide Confined, PersistWorks, PersistReviews, PersistChecks, PersistComments, DrawnBelow;
    var works := PersistWorks(t, tenant, n.workItems, map[], now);
    PersistWorksConfined(t, tenant, n.workItems, map[], now);
    Still(tenant, t, works.0);
    PersistReviewsConfined(works.0, tenant, n.reviews, works.1);
    var r := PersistReviews(works.0, tenant, n.reviews, works.1);
    if r.Ok? {
      var t3 := PersistChecks(r.value, tenant, n.checkRuns);
      PersistChecksConfined(r.value, tenant, n.checkRuns);
      PersistCommentsConfined(t3, tenant, n.comments);
      ConfinedTransitive(tenant, t, works.0, r.value);
      ConfinedTransitive(tenant, t, r.value, t3);
      ConfinedTransitive(tenant, t, t3, PersistComments(t3, tenant, n.comments));
    }
  }

  /** One delivery's transaction changes no other tenant's row and no id already drawn. */
  lemma EffectConfined(t: Tables, c: Commit, now: Time)
    requires DrawnBelow(t)
    ensures Effect(t, c, now).Ok? ==> Confined(c.tenant, t, Effect(t, c, now).value)
  {
    hide Confined, Persist, MarkDelivery, DrawnBelow;
    var t1 := MarkDelivery(t, c.tenant, c.deliveryId, c.eventType);
    MarkConfined(t, c.tenant, c.deliveryId, c.eventType);
    Still(c.tenant, t, t1);
    PersistConfined(t1, c.tenant, c.content, now);
    if Effect(t, c, now).Ok? {
      ConfinedTransitive(c.tenant, t, t1, Effect(t, c, now).value);
    }
  }
}
