/**
  The write model without generated values: what one delivery means, table by
  table, and the proof that persist on the real tables realizes exactly that.
 */
module Views {
  import opened Prelude
  import opened Connector
  import GitHubSource
  import opened Schema

  /** A review linked by natural keys: to its PR's key and to the reviewer's login hash. */
  datatype ReviewView = ReviewView(work: WorkKey, reviewer: LoginHash, cols: ReviewCols)

  type Works = map<WorkKey, WorkCols>
  type Reviews = map<SourceKey, ReviewView>
  type Checks = map<SourceKey, CheckCols>
  type People = map<PersonKey, Person>

  datatype View = View(
    works: Works,
    reviews: Reviews,
    checks: Checks,
    people: People,
    deliveries: map<DeliveryKey, string>,
    events: seq<Event>)

  const NOTHING := View(map[], map[], map[], map[], map[], [])

  /** One committed delivery. */
  datatype Commit = Commit(tenant: Tenant, deliveryId: string, eventType: string, content: Normalized)

  // ---- the meaning of a delivery, one table at a time ----

  function ApplyWork(ws: Works, tenant: Tenant, wi: WorkItem): Works {
    var key := KeyOf(tenant, wi);
    if key !in ws then ws[key := Columns(wi)]
    else if wi.event.NoEvent? then ws
    else ws[key := Refreshed(ws[key], Columns(wi))]
  }

  function ApplyWorks(ws: Works, tenant: Tenant, items: seq<WorkItem>): Works
    decreases |items|
  {
    if items == [] then ws else ApplyWorks(ApplyWork(ws, tenant, items[0]), tenant, items[1..])
  }

  function WorkEmits(tenant: Tenant, wi: WorkItem): seq<Event> {
    if wi.event.NoEvent? then [] else [WorkEvent(tenant, wi)]
  }

  function WorkEvents(tenant: Tenant, items: seq<WorkItem>): seq<Event> {
    if items == [] then [] else WorkEmits(tenant, items[0]) + WorkEvents(tenant, items[1..])
  }

  /** Which key a node id of this delivery stands for: the last item carrying it. */
  function NodeKeys(tenant: Tenant, items: seq<WorkItem>): map<string, WorkKey> {
    if items == [] then map[]
    else map[items[0].nodeId := KeyOf(tenant, items[0])] + NodeKeys(tenant, items[1..])
  }

  function ApplyPerson(ps: People, tenant: Tenant, rv: Review): People {
    var key := LinkKey(tenant, rv.reviewerLogin);
    if rv.reviewerLogin == "" || key in ps then ps
    else ps[key := Person(rv.reviewerLogin, IsBot(rv.reviewerLogin))]
  }

  function ApplyPeople(ps: People, tenant: Tenant, reviews: seq<Review>): People
    decreases |reviews|
  {
    if reviews == [] then ps else ApplyPeople(ApplyPerson(ps, tenant, reviews[0]), tenant, reviews[1..])
  }

  function ApplyReview(rs: Reviews, tenant: Tenant, rv: Review, work: WorkKey): Reviews {
    var key := SourceKey(tenant, rv.sourceId);
    var cols := ReviewCols(rv.state, rv.commentCount, rv.submittedAt);
    if rv.reviewerLogin == "" then rs
    else if key in rs then rs[key := rs[key].(cols := cols)]
    else rs[key := ReviewView(work, Sha256(rv.reviewerLogin), cols)]
  }

  predicate ParentsIn(keys: map<string, WorkKey>, reviews: seq<Review>) {
    reviews == [] || (reviews[0].prNodeId in keys && ParentsIn(keys, reviews[1..]))
  }

  function ApplyReviews(rs: Reviews, tenant: Tenant, reviews: seq<Review>, keys: map<string, WorkKey>): Reviews
    requires ParentsIn(keys, reviews)
    decreases |reviews|
  {
    if reviews == [] then rs
    else ApplyReviews(ApplyReview(rs, tenant, reviews[0], keys[reviews[0].prNodeId]), tenant, reviews[1..], keys)
  }

  function ReviewEmits(tenant: Tenant, rv: Review): seq<Event> {
    if rv.reviewerLogin == "" then [] else [ReviewEvent(tenant, rv)]
  }

  function ReviewEvents(tenant: Tenant, reviews: seq<Review>): seq<Event> {
    if reviews == [] then [] else ReviewEmits(tenant, reviews[0]) + ReviewEvents(tenant, reviews[1..])
  }

  function ApplyCheck(cs: Checks, tenant: Tenant, cr: CheckRun): Checks {
    var key := SourceKey(tenant, cr.sourceId);
    var incoming := CheckColumns(cr);
    cs[key := if key in cs then RefreshedCheck(cs[key], incoming) else incoming]
  }

  function ApplyChecks(cs: Checks, tenant: Tenant, checks: seq<CheckRun>): Checks
    decreases |checks|
  {
    if checks == [] then cs else ApplyChecks(ApplyCheck(cs, tenant, checks[0]), tenant, checks[1..])
  }

  function CheckEvents(tenant: Tenant, checks: seq<CheckRun>): seq<Event> {
    if checks == [] then [] else [CheckEvent(tenant, checks[0])] + CheckEvents(tenant, checks[1..])
  }

  function CommentEvents(tenant: Tenant, comments: seq<Comment>): seq<Event> {
    if comments == [] then [] else [CommentEvent(tenant, comments[0])] + CommentEvents(tenant, comments[1..])
  }

  /** The canonical events of one delivery, in staging order. They do not depend on the tables. */
  function EventsOf(tenant: Tenant, n: Normalized): seq<Event> {
    WorkEvents(tenant, n.workItems) + ReviewEvents(tenant, n.reviews)
    + CheckEvents(tenant, n.checkRuns) + CommentEvents(tenant, n.comments)
  }

  predicate Complete(c: Commit) {
    ParentsIn(NodeKeys(c.tenant, c.content.workItems), c.content.reviews)
  }

  function ApplyMark(ds: map<DeliveryKey, string>, c: Commit): map<DeliveryKey, string> {
    if c.deliveryId == "" then ds else ds[DeliveryKey(c.tenant, c.deliveryId) := c.eventType]
  }

  function Apply(v: View, c: Commit): View
    requires Complete(c)
  {
    View(ApplyWorks(v.works, c.tenant, c.content.workItems),
         ApplyReviews(v.reviews, c.tenant, c.content.reviews, NodeKeys(c.tenant, c.content.workItems)),
         ApplyChecks(v.checks, c.tenant, c.content.checkRuns),
         ApplyPeople(v.people, c.tenant, c.content.reviews),
         ApplyMark(v.deliveries, c),
         v.events + EventsOf(c.tenant, c.content))
  }

  lemma {:induction false} NodeKeysHaveAllNodes(tenant: Tenant, items: seq<WorkItem>, wi: WorkItem)
    requires wi in items
    ensures wi.nodeId in NodeKeys(tenant, items)
  {
    if items[0] != wi {
      assert wi in items[1..];
      NodeKeysHaveAllNodes(tenant, items[1..], wi);
    }
  }

  lemma {:induction false} ParentsFound(keys: map<string, WorkKey>, reviews: seq<Review>)
    requires forall rv :: rv in reviews ==> rv.prNodeId in keys
    ensures ParentsIn(keys, reviews)
  {
    if reviews != [] {
      ParentsFound(keys, reviews[1..]);
    }
  }

  /** Every result the connector can produce is complete, so Apply is total on them. */
  lemma NormalizedIsComplete(c: Commit)
    requires GitHubSource.WellFormed(c.content)
    ensures Complete(c)
  {
    forall rv | rv in c.content.reviews
      ensures rv.prNodeId in NodeKeys(c.tenant, c.content.workItems)
    {
      assert GitHubSource.ParentPresent(c.content, rv);
      var wi :| wi in c.content.workItems && wi.nodeId == rv.prNodeId;
      NodeKeysHaveAllNodes(c.tenant, c.content.workItems, wi);
    }
    ParentsFound(NodeKeys(c.tenant, c.content.workItems), c.content.reviews);
  }

  // ---- the tables realize a view: equal but for generated values ----

  ghost predicate WorksRep(ws: map<WorkKey, WorkRow>, vs: Works) {
    && ws.Keys == vs.Keys
    && (forall k :: k in ws ==> ws[k].cols == vs[k])
    && (forall j, k :: j in ws && k in ws && ws[j].id == ws[k].id ==> j == k)
  }

  ghost predicate IsLinked(links: map<PersonKey, LinkRow>, contributorId: Id) {
    exists k :: k in links && links[k].contributorId == contributorId
  }

  ghost predicate PeopleRep(links: map<PersonKey, LinkRow>, contributors: map<Id, ContributorRow>, ps: People) {
    && links.Keys == ps.Keys
    && (forall k :: k in links ==>
          && links[k].contributorId in contributors
          && contributors[links[k].contributorId] == ContributorRow(k.tenant, ps[k]))
    && (forall j, k :: j in links && k in links && links[j].contributorId == links[k].contributorId ==> j == k)
    && (forall i :: i in contributors ==> IsLinked(links, i))
  }

  /** The stored ids of a review are those of the rows its natural keys name. */
  ghost predicate LinkedTo(
      ws: map<WorkKey, WorkRow>, links: map<PersonKey, LinkRow>, tenant: Tenant, row: ReviewRow, rv: ReviewView)
  {
    && rv.work in ws && ws[rv.work].id == row.workItemId
    && PersonKey(tenant, rv.reviewer) in links
    && links[PersonKey(tenant, rv.reviewer)].contributorId == row.reviewerId
  }

  ghost predicate ReviewsRep(
      rows: map<SourceKey, ReviewRow>, ws: map<WorkKey, WorkRow>, links: map<PersonKey, LinkRow>, rs: Reviews)
  {
    && rows.Keys == rs.Keys
    && (forall k :: k in rows ==> rows[k].cols == rs[k].cols && LinkedTo(ws, links, k.tenant, rows[k], rs[k]))
  }

  ghost predicate ChecksRep(rows: map<SourceKey, CheckRow>, cs: Checks) {
    rows.Keys == cs.Keys && forall k :: k in rows ==> rows[k].cols == cs[k]
  }

  /** Row for row the same events, in the order of their outbox ids. */
  ghost predicate OutboxRep(outbox: seq<OutboxRow>, nextOutboxId: nat, events: seq<Event>) {
    && |outbox| == |events|
    && (forall i :: 0 <= i < |outbox| ==> outbox[i].event == events[i] && outbox[i].outboxId < nextOutboxId)
    && (forall i, j :: 0 <= i < j < |outbox| ==> outbox[i].outboxId < outbox[j].outboxId)
  }

  /** What has been drawn from the id counter stays below it. */
  ghost predicate DrawnBelow(t: Tables) {
    && (forall k :: k in t.works ==> t.works[k].id < t.nextId)
    && (forall i :: i in t.contributors ==> i < t.nextId)
  }

  ghost predicate LinkIds(links: map<PersonKey, LinkRow>, next: Id) {
    && (forall k :: k in links ==> links[k].id < next)
    && (forall j, k :: j in links && k in links && links[j].id == links[k].id ==> j == k)
  }

  ghost predicate ReviewIds(rows: map<SourceKey, ReviewRow>, next: Id) {
    && (forall k :: k in rows ==> rows[k].id < next)
    && (forall j, k :: j in rows && k in rows && rows[j].id == rows[k].id ==> j == k)
  }

  ghost predicate CheckIds(rows: map<SourceKey, CheckRow>, next: Id) {
    && (forall k :: k in rows ==> rows[k].id < next)
    && (forall j, k :: j in rows && k in rows && rows[j].id == rows[k].id ==> j == k)
  }

  ghost predicate EventIds(outbox: seq<OutboxRow>, next: Id) {
    && (forall i :: 0 <= i < |outbox| ==> outbox[i].eventId < next)
    && (forall i, j :: 0 <= i < j < |outbox| ==> outbox[i].eventId != outbox[j].eventId)
  }

  /** No two links, reviews, checks or events share a generated id, and all of them were drawn. */
  ghost predicate IdsDistinct(t: Tables) {
    LinkIds(t.links, t.nextId) && ReviewIds(t.reviews, t.nextId) && CheckIds(t.checks, t.nextId)
    && EventIds(t.outbox, t.nextId)
  }

  /** The tables hold the rows of the view, linked as the view says, each with a generated id of
      its own, and nothing else: no contributor but those some link names. */
  ghost predicate Rep(t: Tables, v: View) {
    && WorksRep(t.works, v.works)
    && PeopleRep(t.links, t.contributors, v.people)
    && ReviewsRep(t.reviews, t.works, t.links, v.reviews)
    && ChecksRep(t.checks, v.checks)
    && OutboxRep(t.outbox, t.nextOutboxId, v.events)
    && t.deliveries == v.deliveries
    && DrawnBelow(t) && IdsDistinct(t)
  }

  /** idByNode agrees with the natural keys it stands for. */
  ghost predicate IdsRep(t: Tables, ids: NodeIds, keys: map<string, WorkKey>) {
    && ids.Keys == keys.Keys
    && forall node :: node in ids ==> keys[node] in t.works && t.works[keys[node]].id == ids[node]
  }

  // ---- generated ids never change ----

  ghost predicate WorkIdsKept(ws: map<WorkKey, WorkRow>, ws': map<WorkKey, WorkRow>) {
    forall k :: k in ws ==> k in ws' && ws'[k].id == ws[k].id
  }

  ghost predicate LinksKept(ls: map<PersonKey, LinkRow>, ls': map<PersonKey, LinkRow>) {
    forall k :: k in ls ==> k in ls' && ls'[k] == ls[k]
  }

  ghost predicate ReviewIdsKept(rs: map<SourceKey, ReviewRow>, rs': map<SourceKey, ReviewRow>) {
    forall k :: k in rs ==> k in rs' && rs'[k] == rs[k].(cols := rs'[k].cols)
  }

  ghost predicate CheckIdsKept(cs: map<SourceKey, CheckRow>, cs': map<SourceKey, CheckRow>) {
    forall k :: k in cs ==> k in cs' && cs'[k].id == cs[k].id
  }

  /** No row of `t` has lost or changed a generated id in `t'`. */
  ghost predicate KeepsIds(t: Tables, t': Tables) {
    && WorkIdsKept(t.works, t'.works) && LinksKept(t.links, t'.links)
    && ReviewIdsKept(t.reviews, t'.reviews) && CheckIdsKept(t.checks, t'.checks)
  }

  lemma KeepsIdsTransitive(t: Tables, t': Tables, t'': Tables)
    requires KeepsIds(t, t') && KeepsIds(t', t'')
    ensures KeepsIds(t, t'')
  {
  }

  lemma KeepsIdsReflexive(t: Tables)
    ensures KeepsIds(t, t)
  {
  }

  lemma EnqueueKeepsIds(t: Tables, e: Event)
    ensures KeepsIds(t, Enqueue(t, e))
  {
    KeepsIdsReflexive(t);
    hide WorkIdsKept, LinksKept, ReviewIdsKept, CheckIdsKept;
  }

  lemma WriteWorkKeepsIds(t: Tables, tenant: Tenant, wi: WorkItem, now: Time)
    ensures KeepsIds(t, EnsureWork(t, tenant, wi, now)) && KeepsIds(t, UpsertWork(t, tenant, wi, now))
  {
    KeepsIdsReflexive(t);
    hide LinksKept, ReviewIdsKept, CheckIdsKept;
  }

  lemma ResolveKeepsIds(t: Tables, tenant: Tenant, login: string)
    ensures KeepsIds(t, ResolveContributor(t, tenant, login).0)
  {
    KeepsIdsReflexive(t);
    hide WorkIdsKept, ReviewIdsKept, CheckIdsKept;
  }

  lemma UpsertReviewKeepsIds(t: Tables, tenant: Tenant, workItemId: Id, reviewerId: Id, rv: Review)
    ensures KeepsIds(t, UpsertReview(t, tenant, workItemId, reviewerId, rv))
  {
    KeepsIdsReflexive(t);
    hide WorkIdsKept, LinksKept, CheckIdsKept;
  }

  lemma UpsertCheckKeepsIds(t: Tables, tenant: Tenant, cr: CheckRun)
    ensures KeepsIds(t, UpsertCheck(t, tenant, cr))
  {
    KeepsIdsReflexive(t);
    hide WorkIdsKept, LinksKept, ReviewIdsKept;
  }

  lemma PersistWorkKeepsIds(t: Tables, tenant: Tenant, wi: WorkItem, now: Time)
    ensures KeepsIds(t, PersistWork(t, tenant, wi, now))
  {
    hide KeepsIds, EnsureWork, UpsertWork, Enqueue;
    WriteWorkKeepsIds(t, tenant, wi, now);
    if !wi.event.NoEvent? {
      var t1 := UpsertWork(t, tenant, wi, now);
      EnqueueKeepsIds(t1, WorkEvent(tenant, wi));
      KeepsIdsTransitive(t, t1, Enqueue(t1, WorkEvent(tenant, wi)));
    }
  }

  lemma PersistReviewKeepsIds(t: Tables, tenant: Tenant, rv: Review, workItemId: Id)
    ensures KeepsIds(t, PersistReview(t, tenant, rv, workItemId))
  {
    hide KeepsIds, ResolveContributor, UpsertReview, Enqueue;
    KeepsIdsReflexive(t);
    if rv.reviewerLogin != "" {
      var resolved := ResolveContributor(t, tenant, rv.reviewerLogin);
      var t2 := UpsertReview(resolved.0, tenant, workItemId, resolved.1, rv);
      ResolveKeepsIds(t, tenant, rv.reviewerLogin);
      UpsertReviewKeepsIds(resolved.0, tenant, workItemId, resolved.1, rv);
      EnqueueKeepsIds(t2, ReviewEvent(tenant, rv));
      KeepsIdsTransitive(t, resolved.0, t2);
      KeepsIdsTransitive(t, t2, Enqueue(t2, ReviewEvent(tenant, rv)));
    }
  }

  // ---- one lemma a row ----

  lemma SameWork(t: Tables, v: View, key: WorkKey)
    requires Rep(t, v)
    ensures key in t.works <==> key in v.works
    ensures key in t.works ==> t.works[key].cols == v.works[key]
  {
  }

  lemma SameCheck(t: Tables, v: View, key: SourceKey)
    requires Rep(t, v)
    ensures key in t.checks <==> key in v.checks
    ensures key in t.checks ==> t.checks[key].cols == v.checks[key]
  {
  }

  lemma SamePerson(t: Tables, v: View, key: PersonKey)
    requires Rep(t, v)
    ensures key in t.links <==> key in v.people
  {
  }

  /** Reviews stay linked as long as no work item or link loses its id. */
  lemma ReviewsStayLinked(
      rows: map<SourceKey, ReviewRow>, ws: map<WorkKey, WorkRow>, links: map<PersonKey, LinkRow>, rs: Reviews,
      ws': map<WorkKey, WorkRow>, links': map<PersonKey, LinkRow>)
    requires ReviewsRep(rows, ws, links, rs) && WorkIdsKept(ws, ws') && LinksKept(links, links')
    ensures ReviewsRep(rows, ws', links', rs)
  {
  }

  lemma WorkAdded(ws: map<WorkKey, WorkRow>, vs: Works, key: WorkKey, row: WorkRow)
    requires WorksRep(ws, vs)
    requires if key in ws then row.id == ws[key].id else forall k :: k in ws ==> ws[k].id != row.id
    ensures WorksRep(ws[key := row], vs[key := row.cols]) && WorkIdsKept(ws, ws[key := row])
  {
  }

  lemma DrawnStays(t: Tables, t': Tables)
    requires DrawnBelow(t) && t'.works == t.works && t'.contributors == t.contributors && t'.nextId >= t.nextId
    ensures DrawnBelow(t')
  {
  }

  /** Drawing more ids disturbs none. */
  lemma IdsStayDistinct(t: Tables, next: Id)
    requires IdsDistinct(t) && next >= t.nextId
    ensures LinkIds(t.links, next) && ReviewIds(t.reviews, next) && CheckIds(t.checks, next) && EventIds(t.outbox, next)
  {
  }

  lemma WorkWritten(t: Tables, v: View, key: WorkKey, row: WorkRow, next: Id)
    requires Rep(t, v) && next >= t.nextId
    requires if key in t.works then row.id == t.works[key].id else row.id == t.nextId < next
    ensures Rep(t.(works := t.works[key := row], nextId := next), v.(works := v.works[key := row.cols]))
  {
    hide WorksRep, ReviewsRep, PeopleRep, ChecksRep, OutboxRep, WorkIdsKept, LinksKept,
         LinkIds, ReviewIds, CheckIds, EventIds;
    IdsStayDistinct(t, next);
    WorkAdded(t.works, v.works, key, row);
    LinksKeptReflexive(t.links);
    ReviewsStayLinked(t.reviews, t.works, t.links, v.reviews, t.works[key := row], t.links);
  }

  lemma WorkIdsKeptReflexive(works: map<WorkKey, WorkRow>)
    ensures WorkIdsKept(works, works)
  {
  }

  lemma LinksKeptReflexive(links: map<PersonKey, LinkRow>)
    ensures LinksKept(links, links)
  {
  }

  lemma PersonAdded(
      links: map<PersonKey, LinkRow>, cs: map<Id, ContributorRow>, ps: People, key: PersonKey, id: Id, linkId: Id,
          p: Person)
    requires PeopleRep(links, cs, ps) && key !in links && id !in cs
    ensures PeopleRep(links[key := LinkRow(linkId, id)], cs[id := ContributorRow(key.tenant, p)], ps[key := p])
    ensures LinksKept(links, links[key := LinkRow(linkId, id)])
  {
    var links' := links[key := LinkRow(linkId, id)];
    assert links'[key].contributorId == id;
    forall i | IsLinked(links, i) ensures IsLinked(links', i) {
      var k :| k in links && links[k].contributorId == i;
      assert k in links' && links'[k].contributorId == i;
    }
  }

  lemma LinkIdAdded(links: map<PersonKey, LinkRow>, key: PersonKey, row: LinkRow, next: Id)
    requires LinkIds(links, row.id) && key !in links && row.id < next
    ensures LinkIds(links[key := row], next)
  {
  }

  function WithPerson(t: Tables, key: PersonKey, p: Person): Tables {
    t.(contributors := t.contributors[t.nextId := ContributorRow(key.tenant, p)],
       links := t.links[key := LinkRow(t.nextId + 1, t.nextId)], nextId := t.nextId + 2)
  }

  lemma DrawnWithPerson(t: Tables, key: PersonKey, p: Person)
    requires DrawnBelow(t)
    ensures DrawnBelow(WithPerson(t, key, p)) && t.nextId !in t.contributors
  {
  }

  lemma IdsWithPerson(t: Tables, key: PersonKey, p: Person)
    requires IdsDistinct(t) && DrawnBelow(t) && key !in t.links
    ensures IdsDistinct(WithPerson(t, key, p)) && DrawnBelow(WithPerson(t, key, p)) && t.nextId !in t.contributors
  {
    DrawnWithPerson(t, key, p);
    hide DrawnBelow;
    IdsStayDistinct(t, t.nextId + 1);
    IdsStayDistinct(t, t.nextId + 2);
    LinkIdAdded(t.links, key, LinkRow(t.nextId + 1, t.nextId), t.nextId + 2);
    hide LinkIds, ReviewIds, CheckIds, EventIds;
  }

  /** A contributor and its link, drawn in that order. */
  lemma PersonWritten(t: Tables, v: View, key: PersonKey, p: Person)
    requires Rep(t, v) && key !in t.links
    ensures Rep(WithPerson(t, key, p), v.(people := v.people[key := p]))
  {
    hide WorksRep, ReviewsRep, PeopleRep, ChecksRep, OutboxRep, LinksKept, WorkIdsKept, DrawnBelow, IdsDistinct;
    IdsWithPerson(t, key, p);
    PersonAdded(t.links, t.contributors, v.people, key, t.nextId, t.nextId + 1, p);
    WorkIdsKeptReflexive(t.works);
    ReviewsStayLinked(t.reviews, t.works, t.links, v.reviews, t.works, t.links[key := LinkRow(t.nextId + 1, t.nextId)]);
  }

  lemma CheckIdAdded(rows: map<SourceKey, CheckRow>, key: SourceKey, row: CheckRow, drawn: Id, next: Id)
    requires CheckIds(rows, drawn) && drawn <= next
    requires if key in rows then row.id == rows[key].id else row.id == drawn < next
    ensures CheckIds(rows[key := row], next)
  {
  }

  lemma IdsWithCheck(t: Tables, key: SourceKey, row: CheckRow, next: Id)
    requires IdsDistinct(t) && DrawnBelow(t) && next >= t.nextId
    requires if key in t.checks then row.id == t.checks[key].id else row.id == t.nextId < next
    ensures var t' := t.(checks := t.checks[key := row], nextId := next); IdsDistinct(t') && DrawnBelow(t')
  {
    IdsStayDistinct(t, next);
    CheckIdAdded(t.checks, key, row, t.nextId, next);
    DrawnStays(t, t.(checks := t.checks[key := row], nextId := next));
    hide LinkIds, ReviewIds, CheckIds, EventIds, DrawnBelow;
  }

  lemma ChecksRepWith(rows: map<SourceKey, CheckRow>, cs: Checks, key: SourceKey, row: CheckRow)
    requires ChecksRep(rows, cs)
    ensures ChecksRep(rows[key := row], cs[key := row.cols])
  {
  }

  lemma CheckWritten(t: Tables, v: View, key: SourceKey, row: CheckRow, next: Id)
    requires Rep(t, v) && next >= t.nextId
    requires if key in t.checks then row.id == t.checks[key].id else row.id == t.nextId < next
    ensures Rep(t.(checks := t.checks[key := row], nextId := next), v.(checks := v.checks[key := row.cols]))
  {
    IdsWithCheck(t, key, row, next);
    ChecksRepWith(t.checks, v.checks, key, row);
    hide WorksRep, ReviewsRep, PeopleRep, OutboxRep, ChecksRep, DrawnBelow, IdsDistinct;
  }

  lemma SameReview(t: Tables, v: View, key: SourceKey)
    requires Rep(t, v)
    ensures key in t.reviews <==> key in v.reviews
    ensures key in t.reviews ==> LinkedTo(t.works, t.links, key.tenant, t.reviews[key], v.reviews[key])
  {
    hide LinkedTo;
  }

  lemma ReviewIdAdded(rows: map<SourceKey, ReviewRow>, key: SourceKey, row: ReviewRow, drawn: Id, next: Id)
    requires ReviewIds(rows, drawn) && drawn <= next
    requires if key in rows then row.id == rows[key].id else row.id == drawn < next
    ensures ReviewIds(rows[key := row], next)
  {
  }

  lemma IdsWithReview(t: Tables, key: SourceKey, row: ReviewRow, next: Id)
    requires IdsDistinct(t) && DrawnBelow(t) && next >= t.nextId
    requires if key in t.reviews then row.id == t.reviews[key].id else row.id == t.nextId < next
    ensures var t' := t.(reviews := t.reviews[key := row], nextId := next); IdsDistinct(t') && DrawnBelow(t')
  {
    IdsStayDistinct(t, next);
    ReviewIdAdded(t.reviews, key, row, t.nextId, next);
    DrawnStays(t, t.(reviews := t.reviews[key := row], nextId := next));
    hide LinkIds, ReviewIds, CheckIds, EventIds, DrawnBelow;
  }

  lemma ReviewsRepWith(
      rows: map<SourceKey, ReviewRow>, ws: map<WorkKey, WorkRow>, links: map<PersonKey, LinkRow>, rs: Reviews,
      key: SourceKey, row: ReviewRow, rv: ReviewView)
    requires ReviewsRep(rows, ws, links, rs) && row.cols == rv.cols && LinkedTo(ws, links, key.tenant, row, rv)
    ensures ReviewsRep(rows[key := row], ws, links, rs[key := rv])
  {
    hide LinkedTo;
  }

  lemma ReviewWritten(t: Tables, v: View, key: SourceKey, row: ReviewRow, rv: ReviewView, next: Id)
    requires Rep(t, v) && next >= t.nextId
    requires if key in t.reviews then row.id == t.reviews[key].id else row.id == t.nextId < next
    requires row.cols == rv.cols && LinkedTo(t.works, t.links, key.tenant, row, rv)
    ensures Rep(t.(reviews := t.reviews[key := row], nextId := next), v.(reviews := v.reviews[key := rv]))
  {
    IdsWithReview(t, key, row, next);
    ReviewsRepWith(t.reviews, t.works, t.links, v.reviews, key, row, rv);
    hide WorksRep, PeopleRep, ChecksRep, OutboxRep, ReviewsRep, LinkedTo, DrawnBelow, IdsDistinct;
  }

  // ---- one lemma a statement ----

  lemma EventIdAdded(outbox: seq<OutboxRow>, row: OutboxRow, next: Id)
    requires EventIds(outbox, row.eventId) && row.eventId < next
    ensures EventIds(outbox + [row], next)
  {
  }

  lemma IdsWithEvent(t: Tables, e: Event)
    requires IdsDistinct(t) && DrawnBelow(t)
    ensures IdsDistinct(Enqueue(t, e)) && DrawnBelow(Enqueue(t, e))
  {
    IdsStayDistinct(t, t.nextId + 1);
    EventIdAdded(t.outbox, OutboxRow(t.nextOutboxId, t.nextId, e), t.nextId + 1);
    DrawnStays(t, Enqueue(t, e));
    hide LinkIds, ReviewIds, CheckIds, EventIds, DrawnBelow;
  }

  lemma OutboxRepWith(outbox: seq<OutboxRow>, next: nat, events: seq<Event>, row: OutboxRow)
    requires OutboxRep(outbox, next, events) && row.outboxId == next
    ensures OutboxRep(outbox + [row], next + 1, events + [row.event])
  {
  }

  lemma EnqueueRep(t: Tables, v: View, e: Event)
    requires Rep(t, v)
    ensures Rep(Enqueue(t, e), v.(events := v.events + [e]))
  {
    IdsWithEvent(t, e);
    OutboxRepWith(t.outbox, t.nextOutboxId, v.events, OutboxRow(t.nextOutboxId, t.nextId, e));
    hide WorksRep, ReviewsRep, PeopleRep, ChecksRep, OutboxRep, DrawnBelow, IdsDistinct;
  }

  lemma EnsureWorkRep(t: Tables, v: View, tenant: Tenant, wi: WorkItem, now: Time)
    requires Rep(t, v) && wi.event.NoEvent?
    ensures Rep(EnsureWork(t, tenant, wi, now), v.(works := ApplyWork(v.works, tenant, wi)))
  {
    hide Rep;
    var key := KeyOf(tenant, wi);
    SameWork(t, v, key);
    if key in t.works {
      assert v.(works := v.works) == v;
    } else {
      WorkWritten(t, v, key, WorkRow(t.nextId, Columns(wi), now), t.nextId + 1);
    }
  }

  lemma UpsertWorkRep(t: Tables, v: View, tenant: Tenant, wi: WorkItem, now: Time)
    requires Rep(t, v) && !wi.event.NoEvent?
    ensures Rep(UpsertWork(t, tenant, wi, now), v.(works := ApplyWork(v.works, tenant, wi)))
    ensures WorkIdsKept(t.works, UpsertWork(t, tenant, wi, now).works)
  {
    WriteWorkKeepsIds(t, tenant, wi, now);
    hide WorkIdsKept;
    hide Rep;
    var key := KeyOf(tenant, wi);
    SameWork(t, v, key);
    if key in t.works {
      var row := t.works[key];
      WorkWritten(t, v, key, WorkRow(row.id, Refreshed(row.cols, Columns(wi)), now), t.nextId);
      assert t.(nextId := t.nextId) == t;
    } else {
      WorkWritten(t, v, key, WorkRow(t.nextId, Columns(wi), now), t.nextId + 1);
    }
  }

  lemma PersistWorkRep(t: Tables, v: View, tenant: Tenant, wi: WorkItem, now: Time)
    requires Rep(t, v)
    ensures Rep(PersistWork(t, tenant, wi, now),
                v.(works := ApplyWork(v.works, tenant, wi), events := v.events + WorkEmits(tenant, wi)))
  {
    hide Rep, EnsureWork, UpsertWork, Enqueue, ApplyWork, WorkIdsKept;
    if wi.event.NoEvent? {
      EnsureWorkRep(t, v, tenant, wi, now);
      assert v.events + WorkEmits(tenant, wi) == v.events;
    } else {
      UpsertWorkRep(t, v, tenant, wi, now);
      EnqueueRep(UpsertWork(t, tenant, wi, now), v.(works := ApplyWork(v.works, tenant, wi)), WorkEvent(tenant, wi));
    }
  }

  lemma ResolveRep(t: Tables, v: View, tenant: Tenant, rv: Review)
    requires Rep(t, v) && rv.reviewerLogin != ""
    ensures Rep(ResolveContributor(t, tenant, rv.reviewerLogin).0, v.(people := ApplyPerson(v.people, tenant, rv)))
  {
    hide Rep;
    var key := LinkKey(tenant, rv.reviewerLogin);
    SamePerson(t, v, key);
    if key in t.links {
      assert v.(people := v.people) == v;
    } else {
      PersonWritten(t, v, key, Person(rv.reviewerLogin, IsBot(rv.reviewerLogin)));
    }
  }

  lemma UpsertReviewRep(t: Tables, v: View, tenant: Tenant, rv: Review, work: WorkKey, reviewerId: Id)
    requires Rep(t, v) && rv.reviewerLogin != "" && work in t.works
    requires var key := LinkKey(tenant, rv.reviewerLogin); key in t.links && t.links[key].contributorId == reviewerId
    ensures Rep(UpsertReview(t, tenant, t.works[work].id, reviewerId, rv),
                v.(reviews := ApplyReview(v.reviews, tenant, rv, work)))
  {
    hide Rep;
    var key := SourceKey(tenant, rv.sourceId);
    var cols := ReviewCols(rv.state, rv.commentCount, rv.submittedAt);
    SameReview(t, v, key);
    if key in t.reviews {
      ReviewWritten(t, v, key, t.reviews[key].(cols := cols), v.reviews[key].(cols := cols), t.nextId);
      assert t.(nextId := t.nextId) == t;
    } else {
      ReviewWritten(t, v, key, ReviewRow(t.nextId, t.works[work].id, reviewerId, cols),
                    ReviewView(work, Sha256(rv.reviewerLogin), cols), t.nextId + 1);
    }
  }

  lemma PersistReviewRep(t: Tables, v: View, tenant: Tenant, rv: Review, work: WorkKey)
    requires Rep(t, v) && work in t.works
    ensures Rep(PersistReview(t, tenant, rv, t.works[work].id),
                v.(people := ApplyPerson(v.people, tenant, rv),
                   reviews := ApplyReview(v.reviews, tenant, rv, work),
                   events := v.events + ReviewEmits(tenant, rv)))
  {
    hide Rep, UpsertReview, Enqueue;
    if rv.reviewerLogin == "" {
      assert v.events + ReviewEmits(tenant, rv) == v.events;
    } else {
      ResolveRep(t, v, tenant, rv);
      var resolved, v1 := ResolveContributor(t, tenant, rv.reviewerLogin), v.(people := ApplyPerson(v.people, tenant,
          rv));
      UpsertReviewRep(resolved.0, v1, tenant, rv, work, resolved.1);
      EnqueueRep(UpsertReview(resolved.0, tenant, t.works[work].id, resolved.1, rv),
                 v1.(reviews := ApplyReview(v.reviews, tenant, rv, work)), ReviewEvent(tenant, rv));
    }
  }

  lemma UpsertCheckRep(t: Tables, v: View, tenant: Tenant, cr: CheckRun)
    requires Rep(t, v)
    ensures Rep(UpsertCheck(t, tenant, cr), v.(checks := ApplyCheck(v.checks, tenant, cr)))
    ensures CheckIdsKept(t.checks, UpsertCheck(t, tenant, cr).checks)
  {
    UpsertCheckKeepsIds(t, tenant, cr);
    hide CheckIdsKept;
    hide Rep;
    var key := SourceKey(tenant, cr.sourceId);
    SameCheck(t, v, key);
    if key in t.checks {
      CheckWritten(t, v, key, CheckRow(t.checks[key].id, RefreshedCheck(t.checks[key].cols, CheckColumns(cr))),
          t.nextId);
      assert t.(nextId := t.nextId) == t;
    } else {
      CheckWritten(t, v, key, CheckRow(t.nextId, CheckColumns(cr)), t.nextId + 1);
    }
  }

  // ---- the loops of persist ----

  lemma IdsStayRight(t: Tables, t': Tables, ids: NodeIds, keys: map<string, WorkKey>)
    requires IdsRep(t, ids, keys) && KeepsIds(t, t')
    ensures IdsRep(t', ids, keys)
  {
  }

  lemma IdsGrowRight(t: Tables, ids: NodeIds, keys: map<string, WorkKey>, node: string, key: WorkKey)
    requires IdsRep(t, ids, keys) && key in t.works
    ensures IdsRep(t, ids[node := t.works[key].id], keys[node := key])
  {
  }

  lemma NoNodeKeys(keys: map<string, WorkKey>, tenant: Tenant)
    ensures keys + NodeKeys(tenant, []) == keys
  {
  }

  lemma NodeKeysStep(keys: map<string, WorkKey>, tenant: Tenant, items: seq<WorkItem>)
    requires items != []
    ensures keys[items[0].nodeId := KeyOf(tenant, items[0])] + NodeKeys(tenant, items[1..])
         == keys + NodeKeys(tenant, items)
  {
  }

  lemma {:induction false} PersistWorksRep(
      t: Tables, v: View, tenant: Tenant, items: seq<WorkItem>, ids: NodeIds, keys: map<string, WorkKey>, now: Time)
    requires Rep(t, v) && IdsRep(t, ids, keys)
    ensures var r := PersistWorks(t, tenant, items, ids, now);
            && Rep(r.0, v.(works := ApplyWorks(v.works, tenant, items), events := v.events + WorkEvents(tenant, items)))
            && IdsRep(r.0, r.1, keys + NodeKeys(tenant, items))
    decreases |items|
  {
    hide Rep, IdsRep, KeepsIds, PersistWork, ApplyWork, WorkEmits, KeyOf, NodeKeys;
    if items == [] {
      assert v.events + [] == v.events;
      NoNodeKeys(keys, tenant);
    } else {
      var wi, rest := items[0], items[1..];
      var t1 := PersistWork(t, tenant, wi, now);
      var v1 := v.(works := ApplyWork(v.works, tenant, wi), events := v.events + WorkEmits(tenant, wi));
      var keys1 := keys[wi.nodeId := KeyOf(tenant, wi)];
      PersistWorkRep(t, v, tenant, wi, now);
      PersistWorkKeepsIds(t, tenant, wi, now);
      IdsStayRight(t, t1, ids, keys);
      IdsGrowRight(t1, ids, keys, wi.nodeId, KeyOf(tenant, wi));
      PersistWorksRep(t1, v1, tenant, rest, ids[wi.nodeId := t1.works[KeyOf(tenant, wi)].id], keys1, now);
      NodeKeysStep(keys, tenant, items);
      assert v1.events + WorkEvents(tenant, rest) == v.events + WorkEvents(tenant, items);
    }
  }

  lemma {:induction false} PersistReviewsRep(
      t: Tables, v: View, tenant: Tenant, reviews: seq<Review>, ids: NodeIds, keys: map<string, WorkKey>)
    requires Rep(t, v) && IdsRep(t, ids, keys)
    ensures PersistReviews(t, tenant, reviews, ids).Ok? <==> ParentsIn(keys, reviews)
    ensures ParentsIn(keys, reviews) ==>
              Rep(PersistReviews(t, tenant, reviews, ids).value,
                  v.(people := ApplyPeople(v.people, tenant, reviews),
                     reviews := ApplyReviews(v.reviews, tenant, reviews, keys),
                     events := v.events + ReviewEvents(tenant, reviews)))
    decreases |reviews|
  {
    hide Rep, KeepsIds, PersistReview, ApplyPerson, ApplyReview, ReviewEmits;
    if reviews == [] {
      assert v.events + [] == v.events;
    } else if reviews[0].prNodeId in keys {
      var rv, rest := reviews[0], reviews[1..];
      var work := keys[rv.prNodeId];
      var t1 := PersistReview(t, tenant, rv, ids[rv.prNodeId]);
      PersistReviewRep(t, v, tenant, rv, work);
      PersistReviewKeepsIds(t, tenant, rv, ids[rv.prNodeId]);
      IdsStayRight(t, t1, ids, keys);
      var v1 := v.(people := ApplyPerson(v.people, tenant, rv), reviews := ApplyReview(v.reviews, tenant, rv, work),
                   events := v.events + ReviewEmits(tenant, rv));
      PersistReviewsRep(t1, v1, tenant, rest, ids, keys);
      assert v1.events + ReviewEvents(tenant, rest) == v.events + ReviewEvents(tenant, reviews);
    }
  }

  lemma {:induction false} PersistChecksRep(t: Tables, v: View, tenant: Tenant, checks: seq<CheckRun>)
    requires Rep(t, v)
    ensures Rep(PersistChecks(t, tenant, checks),
                v.(checks := ApplyChecks(v.checks, tenant, checks), events := v.events + CheckEvents(tenant, checks)))
    decreases |checks|
  {
    hide Rep, UpsertCheck, Enqueue, ApplyCheck, CheckEvent, CheckIdsKept;
    if checks == [] {
      assert v.events + [] == v.events;
    } else {
      var cr, rest := checks[0], checks[1..];
      UpsertCheckRep(t, v, tenant, cr);
      var v1 := v.(checks := ApplyCheck(v.checks, tenant, cr));
      EnqueueRep(UpsertCheck(t, tenant, cr), v1, CheckEvent(tenant, cr));
      var e := CheckEvent(tenant, cr);
      PersistChecksRep(Enqueue(UpsertCheck(t, tenant, cr), e), v1.(events := v.events + [e]), tenant, rest);
      assert CheckEvents(tenant, checks) == [e] + CheckEvents(tenant, rest);
      assert v.events + [e] + CheckEvents(tenant, rest) == v.events + ([e] + CheckEvents(tenant, rest));
    }
  }

  lemma {:induction false} PersistCommentsRep(t: Tables, v: View, tenant: Tenant, comments: seq<Comment>)
    requires Rep(t, v)
    ensures Rep(PersistComments(t, tenant, comments), v.(events := v.events + CommentEvents(tenant, comments)))
    decreases |comments|
  {
    hide Rep, Enqueue, CommentEvent;
    if comments == [] {
      assert v.events + [] == v.events;
    } else {
      var e, rest := CommentEvent(tenant, comments[0]), comments[1..];
      EnqueueRep(t, v, e);
      PersistCommentsRep(Enqueue(t, e), v.(events := v.events + [e]), tenant, rest);
      assert v.events + [e] + CommentEvents(tenant, rest) == v.events + CommentEvents(tenant, comments);
    }
  }

  /** The body of one delivery's transaction: mark, then persist. */
  function Effect(t: Tables, c: Commit, now: Time): Result<Tables, PersistError> {
    Persist(MarkDelivery(t, c.tenant, c.deliveryId, c.eventType), c.tenant, c.content, now)
  }

  lemma MarkRep(t: Tables, v: View, c: Commit)
    requires Rep(t, v) && Fresh(t, c.tenant, c.deliveryId)
    ensures Rep(MarkDelivery(t, c.tenant, c.deliveryId, c.eventType), v.(deliveries := ApplyMark(v.deliveries, c)))
  {
  }

  lemma InitRep()
    ensures Rep(EMPTY, NOTHING)
  {
  }

  lemma ContentRep(t: Tables, v: View, tenant: Tenant, n: Normalized, now: Time)
    requires Rep(t, v)
    ensures var keys := NodeKeys(tenant, n.workItems);
            && (Persist(t, tenant, n, now).Ok? <==> ParentsIn(keys, n.reviews))
            && (ParentsIn(keys, n.reviews) ==>
                  Rep(Persist(t, tenant, n, now).value,
                      View(ApplyWorks(v.works, tenant, n.workItems), ApplyReviews(v.reviews, tenant, n.reviews, keys),
                           ApplyChecks(v.checks, tenant, n.checkRuns), ApplyPeople(v.people, tenant, n.reviews),
                           v.deliveries, v.events + EventsOf(tenant, n))))
  {
    hide Rep, PersistWorks, PersistReviews, PersistChecks, PersistComments,
         ApplyWorks, ApplyReviews, ApplyChecks, ApplyPeople, NodeKeys, ParentsIn,
         WorkEvents, ReviewEvents, CheckEvents, CommentEvents;
    var keys := NodeKeys(tenant, n.workItems);
    PersistWorksRep(t, v, tenant, n.workItems, map[], map[], now);
    assert map[] + keys == keys;
    var r := PersistWorks(t, tenant, n.workItems, map[], now);
    var v2 := v.(works := ApplyWorks(v.works, tenant, n.workItems), events := v.events + WorkEvents(tenant,
        n.workItems));
    PersistReviewsRep(r.0, v2, tenant, n.reviews, r.1, keys);
    if ParentsIn(keys, n.reviews) {
      var t3 := PersistReviews(r.0, tenant, n.reviews, r.1).value;
      var v3 := v2.(people := ApplyPeople(v.people, tenant, n.reviews),
                    reviews := ApplyReviews(v.reviews, tenant, n.reviews, keys),
                    events := v2.events + ReviewEvents(tenant, n.reviews));
      TailRep(t3, v3, tenant, n);
      assert v3.events + (CheckEvents(tenant, n.checkRuns) + CommentEvents(tenant, n.comments))
          == v.events + EventsOf(tenant, n);
    }
  }

  lemma TailRep(t: Tables, v: View, tenant: Tenant, n: Normalized)
    requires Rep(t, v)
    ensures Rep(PersistComments(PersistChecks(t, tenant, n.checkRuns), tenant, n.comments),
                v.(checks := ApplyChecks(v.checks, tenant, n.checkRuns),
                   events := v.events + (CheckEvents(tenant, n.checkRuns) + CommentEvents(tenant, n.comments))))
  {
    hide Rep, PersistChecks, PersistComments, ApplyChecks, CheckEvents, CommentEvents;
    PersistChecksRep(t, v, tenant, n.checkRuns);
    var v' := v.(checks := ApplyChecks(v.checks, tenant, n.checkRuns),
                 events := v.events + CheckEvents(tenant, n.checkRuns));
    PersistCommentsRep(PersistChecks(t, tenant, n.checkRuns), v', tenant, n.comments);
    assert v'.events + CommentEvents(tenant, n.comments)
        == v.events + (CheckEvents(tenant, n.checkRuns) + CommentEvents(tenant, n.comments));
  }

  /** One transaction on the tables is one Apply on the view, and it fails exactly when a
      review's parent is missing. */
  lemma EffectRealizesApply(t: Tables, v: View, c: Commit, now: Time)
    requires Rep(t, v) && Fresh(t, c.tenant, c.deliveryId)
    ensures Effect(t, c, now).Ok? <==> Complete(c)
    ensures Complete(c) ==> Rep(Effect(t, c, now).value, Apply(v, c))
  {
    hide Rep, MarkDelivery, Persist, ParentsIn, NodeKeys;
    MarkRep(t, v, c);
    ContentRep(MarkDelivery(t, c.tenant, c.deliveryId, c.eventType), v.(deliveries := ApplyMark(v.deliveries, c)),
               c.tenant, c.content, now);
  }
}
