/**
  What a canonical event says about its entity, and what it has in common with the row
  written in the same breath.
 */
module Announcements {
  import opened Prelude
  import opened Connector
  import opened Schema

  // ---- what an event tells about its entity ----

  ghost predicate IsNews(e: Event, tenant: Tenant, kind: EventType, sourceEventId: string, occurredAt: Time) {
    && e.tenant == tenant && e.kind == kind && e.source == "github" && e.version == 1
    && e.sourceEventId == sourceEventId && e.occurredAt == occurredAt
  }

  ghost predicate TellsWork(e: Event, tenant: Tenant, wi: WorkItem) {
    && IsNews(e, tenant, wi.event, wi.nodeId, wi.occurredAt) && e.payload.WorkItemPayload?
    && var p := e.payload;
       && p.kind == wi.kind && p.repo == wi.repo && p.nodeId == wi.nodeId && p.number == wi.number
       && p.title == wi.title && p.status == wi.status && p.currentStage == wi.currentStage
       && p.authorLogin == wi.authorLogin && p.changedFiles == wi.changedFiles
       && p.additions == wi.additions && p.deletions == wi.deletions
       && p.commitOids == wi.commitOids && p.files == wi.files
  }

  ghost predicate TellsReview(e: Event, tenant: Tenant, rv: Review) {
    && IsNews(e, tenant, ReviewSubmitted, rv.sourceId, rv.submittedAt) && e.payload.ReviewPayload?
    && var p := e.payload;
       && p.repo == rv.repo && p.prNodeId == rv.prNodeId && p.sourceId == rv.sourceId
       && p.reviewerLogin == rv.reviewerLogin && p.state == rv.state && p.commentCount == rv.commentCount
  }

  /** A check is dated by its completion, else by its start. */
  function DatedBy(completedAt: Option<Time>, startedAt: Option<Time>): Time {
    match (completedAt, startedAt)
    case (Some(t), _) => t
    case (None, Some(t)) => t
    case (None, None) => 0
  }

  ghost predicate TellsCheck(e: Event, tenant: Tenant, cr: CheckRun) {
    && IsNews(e, tenant, CheckCompleted, cr.sourceId, DatedBy(cr.completedAt, cr.startedAt)) && e.payload.CheckPayload?
    && var p := e.payload;
       && p.repo == cr.repo && p.sourceId == cr.sourceId && p.headSha == cr.headSha && p.name == cr.name
       && p.conclusion == cr.conclusion
  }

  ghost predicate TellsComment(e: Event, tenant: Tenant, cm: Comment) {
    && IsNews(e, tenant, CommentAdded, cm.sourceId, cm.createdAt) && e.payload.CommentPayload?
    && var p := e.payload;
       && p.repo == cm.repo && p.sourceId == cm.sourceId && p.parentType == cm.parentType
       && p.parentNumber == cm.parentNumber && p.authorLogin == cm.authorLogin && p.body == cm.body
  }

  // ---- what an event and a row have in common ----

  /** The columns every event about the item carries. */
  ghost predicate MatchesWork(e: Event, row: WorkCols) {
    && e.payload.WorkItemPayload?
    && row.title == e.payload.title && row.status == e.payload.status && row.stage == e.payload.currentStage
    && row.changedFiles == e.payload.changedFiles && row.additions == e.payload.additions
    && row.deletions == e.payload.deletions
  }

  ghost predicate MatchesReview(e: Event, row: ReviewCols) {
    && e.payload.ReviewPayload?
    && row.state == e.payload.state && row.commentCount == e.payload.commentCount && row.submittedAt == e.occurredAt
  }

  ghost predicate MatchesCheck(e: Event, row: CheckCols) {
    && e.payload.CheckPayload?
    && (if e.payload.conclusion == "" then row.conclusion == None else row.conclusion == Some(e.payload.conclusion))
    && e.occurredAt == DatedBy(row.completedAt, row.startedAt)
  }

  // ---- as it is staged ----

  ghost predicate StagesOne(t: Tables, t': Tables) {
    t.outbox <= t'.outbox && |t'.outbox| == |t.outbox| + 1
  }

  /** The row under the item's key after an upsert, given the row that was there. */
  ghost predicate IsRefreshed(row: WorkCols, was: Option<WorkCols>, wi: WorkItem) {
    && row.title == wi.title && row.status == wi.status && row.stage == wi.currentStage
    && row.changedFiles == wi.changedFiles && row.additions == wi.additions && row.deletions == wi.deletions
    && row.mergedAt == wi.mergedAt && row.closedAt == wi.closedAt
    && match was
       case None => row.number == wi.number && row.author == wi.authorLogin && row.createdAt == wi.createdAt
       case Some(cols) => row.number == cols.number && row.author == cols.author && row.createdAt == cols.createdAt
  }

  lemma ColumnsAreRefreshed(wi: WorkItem, cols: WorkCols)
    ensures IsRefreshed(Columns(wi), None, wi) && IsRefreshed(Refreshed(cols, Columns(wi)), Some(cols), wi)
  {
  }

  lemma UpsertRefreshes(t: Tables, tenant: Tenant, wi: WorkItem, now: Time)
    ensures var t', key := UpsertWork(t, tenant, wi, now), WorkKey(tenant, wi.repo, wi.kind, wi.nodeId);
            && t'.outbox == t.outbox && t'.works.Keys == t.works.Keys + {key}
            && (forall k :: k in t.works && k != key ==> t'.works[k] == t.works[k])
            && IsRefreshed(t'.works[key].cols, if key in t.works then Some(t.works[key].cols) else None, wi)
  {
    var key := WorkKey(tenant, wi.repo, wi.kind, wi.nodeId);
    ColumnsAreRefreshed(wi, if key in t.works then t.works[key].cols else Columns(wi));
    hide Columns, Refreshed, IsRefreshed;
  }

  lemma WorkIsTold(tenant: Tenant, wi: WorkItem)
    ensures TellsWork(WorkEvent(tenant, wi), tenant, wi)
  {
  }

  /** The event of an item just persisted and the row now under its key are about one item: they
      agree on what both carry, and on number and author unless the row already had its own. */
  lemma WorkEventMatchesRow(t: Tables, tenant: Tenant, wi: WorkItem, now: Time)
    requires !wi.event.NoEvent?
    ensures var t', key := PersistWork(t, tenant, wi, now), WorkKey(tenant, wi.repo, wi.kind, wi.nodeId);
            && StagesOne(t, t') && t'.works.Keys == t.works.Keys + {key}
            && (forall k :: k in t.works && k != key ==> t'.works[k] == t.works[k])
            && IsRefreshed(t'.works[key].cols, if key in t.works then Some(t.works[key].cols) else None, wi)
            && TellsWork(t'.outbox[|t.outbox|].event, tenant, wi)
            && MatchesWork(t'.outbox[|t.outbox|].event, t'.works[key].cols)
  {
    UpsertRefreshes(t, tenant, wi, now);
    WorkIsTold(tenant, wi);
    hide UpsertWork, WorkEvent;
  }

  /** An item that is only to exist is not announced, and takes its columns from the item if new. */
  lemma EnsuredItemIsSilent(t: Tables, tenant: Tenant, wi: WorkItem, now: Time)
    requires wi.event.NoEvent?
    ensures var t', key := PersistWork(t, tenant, wi, now), WorkKey(tenant, wi.repo, wi.kind, wi.nodeId);
            && t'.outbox == t.outbox && key in t'.works
            && (if key in t.works then t' == t
                else
                  var row := t'.works[key].cols;
                  && row.number == wi.number && row.title == wi.title && row.status == wi.status
                  && row.stage == wi.currentStage && row.author == wi.authorLogin
                  && row.changedFiles == wi.changedFiles && row.additions == wi.additions
                  && row.deletions == wi.deletions && row.createdAt == wi.createdAt
                  && row.mergedAt == wi.mergedAt && row.closedAt == wi.closedAt)
  {
  }

  /** The event of a review and its row agree on state, count and time, and a new row belongs to the
      contributor linked to the login the event names. */
  lemma ReviewEventMatchesRow(t: Tables, tenant: Tenant, rv: Review, workItemId: Id)
    requires rv.reviewerLogin != ""
    ensures var t', key := PersistReview(t, tenant, rv, workItemId), SourceKey(tenant, rv.sourceId);
            && StagesOne(t, t') && key in t'.reviews
            && var e, row := t'.outbox[|t.outbox|].event, t'.reviews[key];
               var who := PersonKey(tenant, Sha256(rv.reviewerLogin));
               && TellsReview(e, tenant, rv) && MatchesReview(e, row.cols)
               && who in t'.links
               && (if key in t.reviews
                   then row.workItemId == t.reviews[key].workItemId && row.reviewerId == t.reviews[key].reviewerId
                   else row.workItemId == workItemId && row.reviewerId == t'.links[who].contributorId)
  {
  }

  lemma CheckEventMatchesRow(t: Tables, tenant: Tenant, cr: CheckRun)
    ensures var t', key := PersistChecks(t, tenant, [cr]), SourceKey(tenant, cr.sourceId);
            && StagesOne(t, t') && key in t'.checks
            && var e, row := t'.outbox[|t.outbox|].event, t'.checks[key].cols;
               && TellsCheck(e, tenant, cr) && MatchesCheck(e, row)
               && (if key in t.checks
                   then row.headSha == t.checks[key].cols.headSha && row.name == t.checks[key].cols.name
                   else row.headSha == e.payload.headSha && row.name == e.payload.name)
  {
    assert [cr][1..] == [];
  }

  // ---- the first loop of persist ----

  /** The items of a delivery that are to be announced. */
  function Announced(items: seq<WorkItem>): seq<WorkItem> {
    if items == [] then [] else (if items[0].event.NoEvent? then [] else [items[0]]) + Announced(items[1..])
  }

  /** The reviews that name a reviewer. */
  function Signed(reviews: seq<Review>): seq<Review> {
    if reviews == [] then [] else (if reviews[0].reviewerLogin == "" then [] else [reviews[0]]) + Signed(reviews[1..])
  }

  /** The rows staged after the first n tell these items, one each and in order. */
  ghost predicate Tells(outbox: seq<OutboxRow>, n: nat, tenant: Tenant, items: seq<WorkItem>) {
    && |outbox| == n + |items|
    && forall k :: n <= k < |outbox| ==> TellsWork(outbox[k].event, tenant, items[k - n])
  }

  lemma TellsOneMore(outbox: seq<OutboxRow>, n: nat, tenant: Tenant, wi: WorkItem, items: seq<WorkItem>)
    requires n < |outbox| && TellsWork(outbox[n].event, tenant, wi) && Tells(outbox, n + 1, tenant, items)
    ensures Tells(outbox, n, tenant, [wi] + items)
  {
    hide TellsWork;
  }

  /** The first loop of persist stages one event for each item to be announced, in order. */
  lemma {:induction false} LoopTells(t: Tables, tenant: Tenant, items: seq<WorkItem>, ids: NodeIds, now: Time)
    ensures var t' := PersistWorks(t, tenant, items, ids, now).0;
            t.outbox <= t'.outbox && Tells(t'.outbox, |t.outbox|, tenant, Announced(items))
    decreases |items|
  {
    hide TellsWork, PersistWork;
    if items != [] {
      var t1 := PersistWork(t, tenant, items[0], now);
      var ids1 := ids[items[0].nodeId := t1.works[KeyOf(tenant, items[0])].id];
      var t' := PersistWorks(t1, tenant, items[1..], ids1, now).0;
      LoopTells(t1, tenant, items[1..], ids1, now);
      hide PersistWorks, Tells, KeyOf, IsRefreshed, MatchesWork;
      if items[0].event.NoEvent? {
        EnsuredItemIsSilent(t, tenant, items[0], now);
        assert [] + Announced(items[1..]) == Announced(items[1..]);
      } else {
        WorkEventMatchesRow(t, tenant, items[0], now);
        assert t'.outbox[|t.outbox|] == t1.outbox[|t.outbox|];
        TellsOneMore(t'.outbox, |t.outbox|, tenant, items[0], Announced(items[1..]));
      }
    }
  }
}
