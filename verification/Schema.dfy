/**
  The write model of db/migrations as maps keyed by the tables' uniqueness
  constraints, and the effect of each SQL statement of the normalizer on it.

  Generated values (gen_random_uuid, the outbox identity column) come from two
  counters; only their freshness is ever used. A rollback does not give drawn
  values back.
 */
module Schema {
  import opened Prelude
  import opened Connector

  type Tenant = string
  type Id = nat

  /** SHA-256 of a login, taken as injective. */
  datatype LoginHash = Sha256(login: string)

  datatype WorkKey = WorkKey(tenant: Tenant, repo: string, kind: string, node: string)
  datatype SourceKey = SourceKey(tenant: Tenant, sourceId: string)
  datatype PersonKey = PersonKey(tenant: Tenant, hash: LoginHash)
  datatype DeliveryKey = DeliveryKey(tenant: Tenant, deliveryId: string)

  datatype WorkCols = WorkCols(
    number: Int64, title: string, status: string, stage: string, author: string,
    changedFiles: Int64, additions: Int64, deletions: Int64,
    createdAt: Time, mergedAt: Option<Time>, closedAt: Option<Time>)

  datatype WorkRow = WorkRow(id: Id, cols: WorkCols, updatedAt: Time)

  datatype ReviewCols = ReviewCols(state: string, commentCount: Int64, submittedAt: Time)
  datatype ReviewRow = ReviewRow(id: Id, workItemId: Id, reviewerId: Id, cols: ReviewCols)

  /** conclusion: None is SQL NULL. */
  datatype CheckCols = CheckCols(
    headSha: string, name: string, conclusion: Option<string>, startedAt: Option<Time>, completedAt: Option<Time>)
  datatype CheckRow = CheckRow(id: Id, cols: CheckCols)

  datatype Person = Person(displayName: string, isBot: bool)
  datatype ContributorRow = ContributorRow(tenant: Tenant, person: Person)
  datatype LinkRow = LinkRow(id: Id, contributorId: Id)

  /** What a canonical event carries of its entity; not all of it. */
  datatype Payload =
    | WorkItemPayload(
        kind: string, repo: string, nodeId: string, number: Int64, title: string, status: string, currentStage: string,
        authorLogin: string, changedFiles: Int64, additions: Int64, deletions: Int64,
        commitOids: seq<string>, files: seq<FileChange>)
    | ReviewPayload(
        repo: string, prNodeId: string, sourceId: string, reviewerLogin: string, state: string, commentCount: Int64)
    | CheckPayload(repo: string, sourceId: string, headSha: string, name: string, conclusion: string)
    | CommentPayload(
        repo: string, sourceId: string, parentType: string, parentNumber: Int64, authorLogin: string, body: string)

  /** A canonical event without its generated event id. */
  datatype Event = Event(
    tenant: Tenant, kind: EventType, source: string, sourceEventId: string,
    occurredAt: Time, version: nat, payload: Payload)

  datatype OutboxRow = OutboxRow(outboxId: nat, eventId: Id, event: Event)

  datatype Tables = Tables(
    works: map<WorkKey, WorkRow>,
    reviews: map<SourceKey, ReviewRow>,
    checks: map<SourceKey, CheckRow>,
    contributors: map<Id, ContributorRow>,
    links: map<PersonKey, LinkRow>,
    deliveries: map<DeliveryKey, string>,
    outbox: seq<OutboxRow>,
    nextId: Id,
    nextOutboxId: nat)

  const EMPTY := Tables(map[], map[], map[], map[], map[], map[], [], 0, 0)

  function KeyOf(tenant: Tenant, wi: WorkItem): WorkKey {
    WorkKey(tenant, wi.repo, wi.kind, wi.nodeId)
  }

  function Columns(wi: WorkItem): WorkCols {
    WorkCols(wi.number, wi.title, wi.status, wi.currentStage, wi.authorLogin,
             wi.changedFiles, wi.additions, wi.deletions, wi.createdAt, wi.mergedAt, wi.closedAt)
  }

  /** The SET list of upsertWorkItem: number, author and creation time keep their first value. */
  function Refreshed(current: WorkCols, incoming: WorkCols): WorkCols {
    incoming.(number := current.number, author := current.author, createdAt := current.createdAt)
  }

  function InsertWork(t: Tables, key: WorkKey, cols: WorkCols, now: Time): Tables {
    t.(works := t.works[key := WorkRow(t.nextId, cols, now)], nextId := t.nextId + 1)
  }

  /** INSERT .. ON CONFLICT DO UPDATE with EXCLUDED values. */
  function UpsertWork(t: Tables, tenant: Tenant, wi: WorkItem, now: Time): Tables {
    var key := KeyOf(tenant, wi);
    if key in t.works then
      var row := t.works[key];
      t.(works := t.works[key := WorkRow(row.id, Refreshed(row.cols, Columns(wi)), now)])
    else
      InsertWork(t, key, Columns(wi), now)
  }

  /** INSERT .. ON CONFLICT DO UPDATE that sets nothing new. */
  function EnsureWork(t: Tables, tenant: Tenant, wi: WorkItem, now: Time): Tables {
    var key := KeyOf(tenant, wi);
    if key in t.works then t else InsertWork(t, key, Columns(wi), now)
  }

  function IsBot(login: string): bool {
    |login| >= 5 && login[|login| - 5..] == "[bot]"
  }

  function LinkKey(tenant: Tenant, login: string): PersonKey {
    PersonKey(tenant, Sha256(login))
  }

  function InsertContributor(t: Tables, tenant: Tenant, login: string): Tables {
    t.(contributors := t.contributors[t.nextId := ContributorRow(tenant, Person(login, IsBot(login)))],
       nextId := t.nextId + 1)
  }

  /** INSERT INTO identity_link .. ON CONFLICT DO NOTHING. */
  function InsertLink(t: Tables, tenant: Tenant, login: string, contributorId: Id): Tables {
    var key := LinkKey(tenant, login);
    if key in t.links then t
    else t.(links := t.links[key := LinkRow(t.nextId, contributorId)], nextId := t.nextId + 1)
  }

  /** resolveContributor when no other transaction interferes. */
  function ResolveContributor(t: Tables, tenant: Tenant, login: string): (r: (Tables, Id))
    ensures LinkKey(tenant, login) in r.0.links && r.0.links[LinkKey(tenant, login)].contributorId == r.1
  {
    var key := LinkKey(tenant, login);
    if key in t.links then (t, t.links[key].contributorId)
    else (InsertLink(InsertContributor(t, tenant, login), tenant, login, t.nextId), t.nextId)
  }

  /** INSERT .. ON CONFLICT DO UPDATE: the work item and the reviewer keep their first value. */
  function UpsertReview(t: Tables, tenant: Tenant, workItemId: Id, reviewerId: Id, rv: Review): Tables {
    var key := SourceKey(tenant, rv.sourceId);
    var cols := ReviewCols(rv.state, rv.commentCount, rv.submittedAt);
    if key in t.reviews then t.(reviews := t.reviews[key := t.reviews[key].(cols := cols)])
    else t.(reviews := t.reviews[key := ReviewRow(t.nextId, workItemId, reviewerId, cols)], nextId := t.nextId + 1)
  }

  function CheckColumns(cr: CheckRun): CheckCols {
    CheckCols(cr.headSha, cr.name, if cr.conclusion == "" then None else Some(cr.conclusion),
              cr.startedAt, cr.completedAt)
  }

  /** The SET list of upsertCheckRun: head SHA and name keep their first value. */
  function RefreshedCheck(current: CheckCols, incoming: CheckCols): CheckCols {
    incoming.(headSha := current.headSha, name := current.name)
  }

  function UpsertCheck(t: Tables, tenant: Tenant, cr: CheckRun): Tables {
    var key := SourceKey(tenant, cr.sourceId);
    if key in t.checks then
      t.(checks := t.checks[key := CheckRow(t.checks[key].id, RefreshedCheck(t.checks[key].cols, CheckColumns(cr)))])
    else
      t.(checks := t.checks[key := CheckRow(t.nextId, CheckColumns(cr))], nextId := t.nextId + 1)
  }

  /** enqueueOutbox: events.New draws the event id, the identity column draws the row id. */
  function Enqueue(t: Tables, event: Event): Tables {
    t.(outbox := t.outbox + [OutboxRow(t.nextOutboxId, t.nextId, event)],
       nextId := t.nextId + 1, nextOutboxId := t.nextOutboxId + 1)
  }

  /** markDelivery's test: an empty delivery id is never a duplicate. */
  predicate Fresh(t: Tables, tenant: Tenant, deliveryId: string) {
    deliveryId == "" || DeliveryKey(tenant, deliveryId) !in t.deliveries
  }

  function MarkDelivery(t: Tables, tenant: Tenant, deliveryId: string, eventType: string): Tables {
    if deliveryId == "" || DeliveryKey(tenant, deliveryId) in t.deliveries then t
    else t.(deliveries := t.deliveries[DeliveryKey(tenant, deliveryId) := eventType])
  }

  // ---- canonical events ----

  function NewEvent(tenant: Tenant, kind: EventType, sourceEventId: string, occurredAt: Time, payload: Payload): Event {
    Event(tenant, kind, "github", sourceEventId, occurredAt, 1, payload)
  }

  function WorkEvent(tenant: Tenant, wi: WorkItem): Event {
    NewEvent(tenant, wi.event, wi.nodeId, wi.occurredAt,
             WorkItemPayload(wi.kind, wi.repo, wi.nodeId, wi.number, wi.title, wi.status, wi.currentStage,
                 wi.authorLogin,
                             wi.changedFiles, wi.additions, wi.deletions, wi.commitOids, wi.files))
  }

  function ReviewEvent(tenant: Tenant, rv: Review): Event {
    NewEvent(tenant, ReviewSubmitted, rv.sourceId, rv.submittedAt,
             ReviewPayload(rv.repo, rv.prNodeId, rv.sourceId, rv.reviewerLogin, rv.state, rv.commentCount))
  }

  function CheckEvent(tenant: Tenant, cr: CheckRun): Event {
    var occurred := if cr.completedAt.Some? then cr.completedAt else cr.startedAt;
    NewEvent(tenant, CheckCompleted, cr.sourceId, GetOr(occurred, ZERO_TIME),
             CheckPayload(cr.repo, cr.sourceId, cr.headSha, cr.name, cr.conclusion))
  }

  function CommentEvent(tenant: Tenant, cm: Comment): Event {
    NewEvent(tenant, CommentAdded, cm.sourceId, cm.createdAt,
             CommentPayload(cm.repo, cm.sourceId, cm.parentType, cm.parentNumber, cm.authorLogin, cm.body))
  }

  // ---- persist ----

  type NodeIds = map<string, Id>

  function PersistWork(t: Tables, tenant: Tenant, wi: WorkItem, now: Time): (r: Tables)
    ensures KeyOf(tenant, wi) in r.works
  {
    if wi.event.NoEvent? then EnsureWork(t, tenant, wi, now)
    else Enqueue(UpsertWork(t, tenant, wi, now), WorkEvent(tenant, wi))
  }

  function PersistWorks(t: Tables, tenant: Tenant, items: seq<WorkItem>, ids: NodeIds, now: Time): (Tables, NodeIds)
    decreases |items|
  {
    if items == [] then (t, ids)
    else
      var t' := PersistWork(t, tenant, items[0], now);
      PersistWorks(t', tenant, items[1..], ids[items[0].nodeId := t'.works[KeyOf(tenant, items[0])].id], now)
  }

  /** A review without a reviewer is skipped whole: no contributor, no row, no event. */
  function PersistReview(t: Tables, tenant: Tenant, rv: Review, workItemId: Id): Tables {
    if rv.reviewerLogin == "" then t
    else
      var resolved := ResolveContributor(t, tenant, rv.reviewerLogin);
      Enqueue(UpsertReview(resolved.0, tenant, workItemId, resolved.1, rv), ReviewEvent(tenant, rv))
  }

  /** Err: the review's parent PR was not in the delivery, the permanent error of persist. */
  datatype PersistError = MissingParent

  function PersistReviews(t: Tables, tenant: Tenant, reviews: seq<Review>, ids: NodeIds): Result<Tables, PersistError>
    decreases |reviews|
  {
    if reviews == [] then Ok(t)
    else if reviews[0].prNodeId !in ids then Err(MissingParent)
    else PersistReviews(PersistReview(t, tenant, reviews[0], ids[reviews[0].prNodeId]), tenant, reviews[1..], ids)
  }

  function PersistChecks(t: Tables, tenant: Tenant, checks: seq<CheckRun>): Tables
    decreases |checks|
  {
    if checks == [] then t
    else PersistChecks(Enqueue(UpsertCheck(t, tenant, checks[0]), CheckEvent(tenant, checks[0])), tenant, checks[1..])
  }

  function PersistComments(t: Tables, tenant: Tenant, comments: seq<Comment>): Tables
    decreases |comments|
  {
    if comments == [] then t
    else PersistComments(Enqueue(t, CommentEvent(tenant, comments[0])), tenant, comments[1..])
  }

  function Persist(t: Tables, tenant: Tenant, n: Normalized, now: Time): Result<Tables, PersistError> {
    var works := PersistWorks(t, tenant, n.workItems, map[], now);
    var reviewed :- PersistReviews(works.0, tenant, n.reviews, works.1);
    Ok(PersistComments(PersistChecks(reviewed, tenant, n.checkRuns), tenant, n.comments))
  }
}
