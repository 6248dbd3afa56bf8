/**
  Whole normalizer transactions, statement by statement: every row a delivery writes
  stays locked until its transaction ends, so that racing transactions leave what a
  serial execution in commit order leaves, in every table.
 */
module TxTables {
  import opened Prelude
  import opened Connector
  import opened Schema
  import opened Views
  import opened Delivery

  type TxId = nat

  /** The unique keys a statement can lock. */
  datatype Key =
    | MarkAt(delivery: DeliveryKey)
    | WorkAt(work: WorkKey)
    | PersonAt(person: PersonKey)
    | ReviewAt(review: SourceKey)
    | CheckAt(check: SourceKey)

  /** A row without generated values. */
  datatype Cell =
    | MarkCell(eventType: string)
    | WorkCell(workCols: WorkCols)
    | PersonCell(who: Person)
    | ReviewCell(view: ReviewView)
    | CheckCell(checkCols: CheckCols)

  type Cells = map<Key, Cell>

  /** One statement of a delivery's transaction. */
  datatype Op =
    | Mark(delivery: DeliveryKey, eventType: string)        // markDelivery
    | Work(work: WorkKey, workCols: WorkCols, ensure: bool) // upsertWorkItem, ensureWorkItem
    | Resolve(person: PersonKey, who: Person)               // resolveContributor
    | Write(review: SourceKey, view: ReviewView)            // insertReview
    | Check(check: SourceKey, checkCols: CheckCols)         // upsertCheckRun
    | Stage(event: Event)                                   // enqueueOutbox

  function KeyFor(op: Op): Key
    requires !op.Stage?
  {
    match op
    case Mark(k, _) => MarkAt(k)
    case Work(k, _, _) => WorkAt(k)
    case Resolve(k, _) => PersonAt(k)
    case Write(k, _) => ReviewAt(k)
    case Check(k, _) => CheckAt(k)
  }

  /** The row a statement leaves, given the row it found. */
  function Written(op: Op, found: Option<Cell>): Cell
    requires !op.Stage?
  {
    match op
    case Mark(_, eventType) => MarkCell(eventType)
    case Work(_, cols, ensure) =>
      if found.None? || !found.value.WorkCell? then WorkCell(cols)
      else if ensure then found.value else WorkCell(Refreshed(found.value.workCols, cols))
    case Resolve(_, who) => if found.None? then PersonCell(who) else found.value
    case Write(_, view) =>
      if found.None? || !found.value.ReviewCell? then ReviewCell(view)
      else ReviewCell(found.value.view.(cols := view.cols))
    case Check(_, cols) =>
      if found.None? || !found.value.CheckCell? then CheckCell(cols)
      else CheckCell(RefreshedCheck(found.value.checkCols, cols))
  }

  function Found(m: Cells, k: Key): Option<Cell> {
    if k in m then Some(m[k]) else None
  }

  // ---- the statements of a delivery ----

  function MarkOps(c: Commit): seq<Op> {
    if c.deliveryId == "" then [] else [Mark(DeliveryKey(c.tenant, c.deliveryId), c.eventType)]
  }

  function WorkOps(tenant: Tenant, items: seq<WorkItem>): seq<Op> {
    if items == [] then []
    else
      var wi := items[0];
      [Work(KeyOf(tenant, wi), Columns(wi), wi.event.NoEvent?)]
      + (if wi.event.NoEvent? then [] else [Stage(WorkEvent(tenant, wi))])
      + WorkOps(tenant, items[1..])
  }

  function ReviewOps(tenant: Tenant, reviews: seq<Review>, keys: map<string, WorkKey>): seq<Op>
    requires ParentsIn(keys, reviews)
  {
    if reviews == [] then []
    else
      var rv := reviews[0];
      var view := ReviewView(keys[rv.prNodeId], Sha256(rv.reviewerLogin),
                             ReviewCols(rv.state, rv.commentCount, rv.submittedAt));
      (if rv.reviewerLogin == "" then []
       else [Resolve(LinkKey(tenant, rv.reviewerLogin), Person(rv.reviewerLogin, IsBot(rv.reviewerLogin))),
             Write(SourceKey(tenant, rv.sourceId), view), Stage(ReviewEvent(tenant, rv))])
      + ReviewOps(tenant, reviews[1..], keys)
  }

  function CheckOps(tenant: Tenant, checks: seq<CheckRun>): seq<Op> {
    if checks == [] then []
    else [Check(SourceKey(tenant, checks[0].sourceId), CheckColumns(checks[0])), Stage(CheckEvent(tenant, checks[0]))]
         + CheckOps(tenant, checks[1..])
  }

  function CommentOps(tenant: Tenant, comments: seq<Comment>): seq<Op> {
    if comments == [] then [] else [Stage(CommentEvent(tenant, comments[0]))] + CommentOps(tenant, comments[1..])
  }

  function Plan(c: Commit): seq<Op>
    requires Complete(c)
  {
    MarkOps(c) + WorkOps(c.tenant, c.content.workItems)
    + ReviewOps(c.tenant, c.content.reviews, NodeKeys(c.tenant, c.content.workItems))
    + CheckOps(c.tenant, c.content.checkRuns) + CommentOps(c.tenant, c.content.comments)
  }

  // ---- one transaction alone ----

  function ApplyOp(m: Cells, op: Op): Cells {
    if op.Stage? then m else m[KeyFor(op) := Written(op, Found(m, KeyFor(op)))]
  }

  function ApplyOps(m: Cells, ops: seq<Op>): Cells {
    if ops == [] then m else ApplyOp(ApplyOps(m, ops[..|ops| - 1]), ops[|ops| - 1])
  }

  function Staged(ops: seq<Op>): seq<Event> {
    if ops == [] then []
    else
      var before, last := Staged(ops[..|ops| - 1]), ops[|ops| - 1];
      if last.Stage? then before + [last.event] else before
  }

  lemma {:induction false} ApplyBoth(m: Cells, a: seq<Op>, b: seq<Op>)
    ensures ApplyOps(m, a + b) == ApplyOps(ApplyOps(m, a), b)
    ensures Staged(a + b) == Staged(a) + Staged(b)
  {
    hide ApplyOp;
    if b == [] {
      assert a + b == a && Staged(a) + [] == Staged(a);
    } else {
      var front, last := b[..|b| - 1], b[|b| - 1];
      assert (a + b)[..|a + b| - 1] == a + front;
      ApplyBoth(m, a, front);
    }
  }

  // ---- rows and views ----

  ghost predicate WorksIn(m: Cells, ws: Works) {
    forall k :: (WorkAt(k) in m <==> k in ws) && (k in ws ==> m[WorkAt(k)] == WorkCell(ws[k]))
  }

  ghost predicate ReviewsIn(m: Cells, rs: Reviews) {
    forall k :: (ReviewAt(k) in m <==> k in rs) && (k in rs ==> m[ReviewAt(k)] == ReviewCell(rs[k]))
  }

  ghost predicate ChecksIn(m: Cells, cs: Checks) {
    forall k :: (CheckAt(k) in m <==> k in cs) && (k in cs ==> m[CheckAt(k)] == CheckCell(cs[k]))
  }

  ghost predicate PeopleIn(m: Cells, ps: People) {
    forall k :: (PersonAt(k) in m <==> k in ps) && (k in ps ==> m[PersonAt(k)] == PersonCell(ps[k]))
  }

  ghost predicate MarksIn(m: Cells, ds: map<DeliveryKey, string>) {
    forall k :: (MarkAt(k) in m <==> k in ds) && (k in ds ==> m[MarkAt(k)] == MarkCell(ds[k]))
  }

  /** The rows are those of the view, and no others. */
  ghost predicate Holds(m: Cells, v: View) {
    WorksIn(m, v.works) && ReviewsIn(m, v.reviews) && ChecksIn(m, v.checks) && PeopleIn(m, v.people)
    && MarksIn(m, v.deliveries)
  }

  lemma WorkHolds(m: Cells, v: View, tenant: Tenant, wi: WorkItem)
    requires Holds(m, v)
    ensures Holds(ApplyOp(m, Work(KeyOf(tenant, wi), Columns(wi), wi.event.NoEvent?)),
                  v.(works := ApplyWork(v.works, tenant, wi)))
  {
    hide Columns, Refreshed;
  }

  lemma PersonHolds(m: Cells, v: View, tenant: Tenant, rv: Review)
    requires Holds(m, v) && rv.reviewerLogin != ""
    ensures Holds(ApplyOp(m, Resolve(LinkKey(tenant, rv.reviewerLogin), Person(rv.reviewerLogin,
        IsBot(rv.reviewerLogin)))),
                  v.(people := ApplyPerson(v.people, tenant, rv)))
  {
    hide IsBot;
  }

  lemma ReviewHolds(m: Cells, v: View, tenant: Tenant, rv: Review, work: WorkKey)
    requires Holds(m, v) && rv.reviewerLogin != ""
    ensures Holds(ApplyOp(m, Write(SourceKey(tenant, rv.sourceId),
                                   ReviewView(work, Sha256(rv.reviewerLogin),
                                              ReviewCols(rv.state, rv.commentCount, rv.submittedAt)))),
                  v.(reviews := ApplyReview(v.reviews, tenant, rv, work)))
  {
  }

  lemma CheckHolds(m: Cells, v: View, tenant: Tenant, cr: CheckRun)
    requires Holds(m, v)
    ensures Holds(ApplyOp(m, Check(SourceKey(tenant, cr.sourceId), CheckColumns(cr))),
                  v.(checks := ApplyCheck(v.checks, tenant, cr)))
  {
    hide CheckColumns, RefreshedCheck;
  }

  lemma MarkHolds(m: Cells, v: View, c: Commit)
    requires Holds(m, v)
    ensures Holds(ApplyOps(m, MarkOps(c)), v.(deliveries := ApplyMark(v.deliveries, c)))
    ensures Staged(MarkOps(c)) == []
  {
    if c.deliveryId != "" {
      var op := Mark(DeliveryKey(c.tenant, c.deliveryId), c.eventType);
      assert [op][..0] == [];
      assert ApplyOps(m, [op]) == ApplyOp(m, op);
    }
  }

  lemma ApplyOne(m: Cells, op: Op)
    ensures ApplyOps(m, [op]) == ApplyOp(m, op) && Staged([op]) == if op.Stage? then [op.event] else []
  {
    assert [op][..0] == [];
  }

  lemma ApplyFirst(m: Cells, op: Op, rest: seq<Op>)
    ensures ApplyOps(m, [op] + rest) == ApplyOps(ApplyOp(m, op), rest)
    ensures Staged([op] + rest) == (if op.Stage? then [op.event] else []) + Staged(rest)
  {
    hide ApplyOps, Staged;
    ApplyBoth(m, [op], rest);
    ApplyOne(m, op);
  }

  lemma {:induction false} WorksHold(m: Cells, v: View, tenant: Tenant, items: seq<WorkItem>)
    requires Holds(m, v)
    ensures Holds(ApplyOps(m, WorkOps(tenant, items)), v.(works := ApplyWorks(v.works, tenant, items)))
    ensures Staged(WorkOps(tenant, items)) == WorkEvents(tenant, items)
    decreases |items|
  {
    hide Holds, ApplyWork, Columns, WorkEvent;
    if items != [] {
      var wi := items[0];
      var op := Work(KeyOf(tenant, wi), Columns(wi), wi.event.NoEvent?);
      var stage := if wi.event.NoEvent? then [] else [Stage(WorkEvent(tenant, wi))];
      var rest := WorkOps(tenant, items[1..]);
      assert WorkOps(tenant, items) == [op] + (stage + rest);
      ApplyFirst(m, op, stage + rest);
      WorkHolds(m, v, tenant, wi);
      var m1 := ApplyOp(m, op);
      if wi.event.NoEvent? {
        assert stage + rest == rest;
      } else {
        ApplyFirst(m1, stage[0], rest);
      }
      hide ApplyOps, Staged;
      WorksHold(m1, v.(works := ApplyWork(v.works, tenant, wi)), tenant, items[1..]);
    }
  }

  lemma {:induction false} ReviewsHold(m: Cells, v: View, tenant: Tenant, reviews: seq<Review>, keys: map<string,
      WorkKey>)
    requires Holds(m, v) && ParentsIn(keys, reviews)
    ensures Holds(ApplyOps(m, ReviewOps(tenant, reviews, keys)),
                  v.(people := ApplyPeople(v.people, tenant, reviews),
                     reviews := ApplyReviews(v.reviews, tenant, reviews, keys)))
    ensures Staged(ReviewOps(tenant, reviews, keys)) == ReviewEvents(tenant, reviews)
    decreases |reviews|
  {
    hide Holds, ApplyPerson, ApplyReview, ReviewEvent, IsBot;
    if reviews != [] {
      var rv, rest := reviews[0], ReviewOps(tenant, reviews[1..], keys);
      if rv.reviewerLogin == "" {
        NobodyApplies(v, tenant, rv, keys[rv.prNodeId]);
        assert [] + rest == rest;
        hide ApplyOps, Staged;
        ReviewsHold(m, v, tenant, reviews[1..], keys);
      } else {
        var m1, v1 := ReviewStep(m, v, tenant, rv, keys[rv.prNodeId], rest);
        hide ApplyOps, Staged;
        ReviewsHold(m1, v1, tenant, reviews[1..], keys);
      }
    }
  }

  lemma NobodyApplies(v: View, tenant: Tenant, rv: Review, work: WorkKey)
    requires rv.reviewerLogin == ""
    ensures ApplyPerson(v.people, tenant, rv) == v.people && ApplyReview(v.reviews, tenant, rv, work) == v.reviews
  {
  }

  /** One review with a reviewer: resolve, write, stage. */
  lemma ReviewStep(m: Cells, v: View, tenant: Tenant, rv: Review, work: WorkKey, rest: seq<Op>)
    returns (m1: Cells, v1: View)
    requires Holds(m, v) && rv.reviewerLogin != ""
    ensures Holds(m1, v1)
    ensures v1 == v.(people := ApplyPerson(v.people, tenant, rv), reviews := ApplyReview(v.reviews, tenant, rv, work))
    ensures var ops := [Resolve(LinkKey(tenant, rv.reviewerLogin), Person(rv.reviewerLogin, IsBot(rv.reviewerLogin))),
                        Write(SourceKey(tenant, rv.sourceId),
                              ReviewView(work, Sha256(rv.reviewerLogin),
                                         ReviewCols(rv.state, rv.commentCount, rv.submittedAt))),
                        Stage(ReviewEvent(tenant, rv))];
            && ApplyOps(m, ops + rest) == ApplyOps(m1, rest)
            && Staged(ops + rest) == [ReviewEvent(tenant, rv)] + Staged(rest)
  {
    hide Holds, ApplyOps, Staged, ApplyPerson, ApplyReview, ReviewEvent, IsBot;
    var resolve := Resolve(LinkKey(tenant, rv.reviewerLogin), Person(rv.reviewerLogin, IsBot(rv.reviewerLogin)));
    var write := Write(SourceKey(tenant, rv.sourceId),
                       ReviewView(work, Sha256(rv.reviewerLogin), ReviewCols(rv.state, rv.commentCount,
                           rv.submittedAt)));
    var stage := Stage(ReviewEvent(tenant, rv));
    PersonHolds(m, v, tenant, rv);
    var m0, v0 := ApplyOp(m, resolve), v.(people := ApplyPerson(v.people, tenant, rv));
    ReviewHolds(m0, v0, tenant, rv, work);
    m1, v1 := ApplyOp(m0, write), v0.(reviews := ApplyReview(v.reviews, tenant, rv, work));
    ApplyFirst(m, resolve, [write, stage] + rest);
    ApplyFirst(m0, write, [stage] + rest);
    ApplyFirst(m1, stage, rest);
    assert [write, stage] + rest == [write] + ([stage] + rest);
    assert [resolve, write, stage] + rest == [resolve] + ([write, stage] + rest);
  }

  lemma {:induction false} ChecksHold(m: Cells, v: View, tenant: Tenant, checks: seq<CheckRun>)
    requires Holds(m, v)
    ensures Holds(ApplyOps(m, CheckOps(tenant, checks)), v.(checks := ApplyChecks(v.checks, tenant, checks)))
    ensures Staged(CheckOps(tenant, checks)) == CheckEvents(tenant, checks)
    decreases |checks|
  {
    hide Holds, ApplyCheck, CheckColumns, CheckEvent;
    if checks != [] {
      var cr, rest := checks[0], CheckOps(tenant, checks[1..]);
      var op, stage := Check(SourceKey(tenant, cr.sourceId), CheckColumns(cr)), Stage(CheckEvent(tenant, cr));
      assert CheckOps(tenant, checks) == [op] + ([stage] + rest);
      ApplyFirst(m, op, [stage] + rest);
      ApplyFirst(ApplyOp(m, op), stage, rest);
      CheckHolds(m, v, tenant, cr);
      hide ApplyOps, Staged;
      ChecksHold(ApplyOp(m, op), v.(checks := ApplyCheck(v.checks, tenant, cr)), tenant, checks[1..]);
    }
  }

  lemma {:induction false} CommentsHold(m: Cells, tenant: Tenant, comments: seq<Comment>)
    ensures ApplyOps(m, CommentOps(tenant, comments)) == m
    ensures Staged(CommentOps(tenant, comments)) == CommentEvents(tenant, comments)
  {
    hide CommentEvent;
    if comments != [] {
      ApplyFirst(m, Stage(CommentEvent(tenant, comments[0])), CommentOps(tenant, comments[1..]));
      hide ApplyOps, Staged;
      CommentsHold(m, tenant, comments[1..]);
    }
  }

  /** Alone, a delivery's statements realize Apply and stage its events in order. */
  lemma PlanRealizesApply(m: Cells, v: View, c: Commit)
    requires Holds(m, v) && Complete(c)
    ensures Holds(ApplyOps(m, Plan(c)), Apply(v, c)) && Staged(Plan(c)) == EventsOf(c.tenant, c.content)
  {
    hide Holds, ApplyOps, Staged, MarkOps, WorkOps, ReviewOps, CheckOps, CommentOps, NodeKeys, ParentsIn,
         ApplyMark, ApplyWorks, ApplyPeople, ApplyReviews, ApplyChecks;
    var keys := NodeKeys(c.tenant, c.content.workItems);
    var a, b := MarkOps(c), WorkOps(c.tenant, c.content.workItems);
    var d, e := ReviewOps(c.tenant, c.content.reviews, keys), CheckOps(c.tenant, c.content.checkRuns);
    var f := CommentOps(c.tenant, c.content.comments);
    ApplyBoth(m, a + b + d + e, f);
    ApplyBoth(m, a + b + d, e);
    ApplyBoth(m, a + b, d);
    ApplyBoth(m, a, b);
    MarkHolds(m, v, c);
    var m1, v1 := ApplyOps(m, a), v.(deliveries := ApplyMark(v.deliveries, c));
    WorksHold(m1, v1, c.tenant, c.content.workItems);
    var m2, v2 := ApplyOps(m1, b), v1.(works := ApplyWorks(v.works, c.tenant, c.content.workItems));
    ReviewsHold(m2, v2, c.tenant, c.content.reviews, keys);
    var m3 := ApplyOps(m2, d);
    var v3 := v2.(people := ApplyPeople(v.people, c.tenant, c.content.reviews),
                  reviews := ApplyReviews(v.reviews, c.tenant, c.content.reviews, keys));
    ChecksHold(m3, v3, c.tenant, c.content.checkRuns);
    CommentsHold(ApplyOps(m3, e), c.tenant, c.content.comments);
    EventsDoNotMatter(ApplyOps(m3, e), v3.(checks := ApplyChecks(v.checks, c.tenant, c.content.checkRuns)), Apply(v,
        c));
  }

  lemma EventsDoNotMatter(m: Cells, v: View, w: View)
    requires Holds(m, v) && w == v.(events := w.events)
    ensures Holds(m, w)
  {
  }

  // ---- racing transactions ----

  /** done: how many statements of the plan have been carried out; own: the rows they wrote,
      locked until the end; staged: their outbox rows. */
  datatype Tx = Tx(c: Commit, done: nat, own: Cells, staged: seq<Event>)

  /** db and outbox: what has been committed. log: the committed deliveries, in commit order. */
  datatype State = Racing(db: Cells, outbox: seq<Event>, txs: map<TxId, Tx>, log: seq<Commit>)

  const INIT := Racing(map[], [], map[], [])

  datatype Action = Begin(id: TxId, c: Commit) | Advance(id: TxId) | Abort(id: TxId)

  predicate Held(txs: map<TxId, Tx>, id: TxId, key: Key) {
    exists u :: u in txs && u != id && key in txs[u].own
  }

  predicate Running(tx: Tx) {
    Complete(tx.c) && tx.done < |Plan(tx.c)|
  }

  /** Carry out the next statement on what the transaction sees: the committed rows, as they are
      now, and its own. One that must wait for a lock changes nothing. */
  function Issue(s: State, id: TxId): State
    requires id in s.txs && Running(s.txs[id])
  {
    var tx := s.txs[id];
    var op := Plan(tx.c)[tx.done];
    if op.Stage? then s.(txs := s.txs[id := tx.(done := tx.done + 1, staged := tx.staged + [op.event])])
    else
      var key, seen := KeyFor(op), s.db + tx.own;
      if op.Mark? && key in s.db then s.(txs := s.txs - {id})
      else if op.Resolve? && key in seen then s.(txs := s.txs[id := tx.(done := tx.done + 1)])
      else if Held(s.txs, id, key) then s
      else s.(txs := s.txs[id := tx.(done := tx.done + 1, own := tx.own[key := Written(op, Found(seen, key))])])
  }

  function Publish(s: State, id: TxId): State
    requires id in s.txs
  {
    var tx := s.txs[id];
    Racing(s.db + tx.own, s.outbox + tx.staged, s.txs - {id}, s.log + [tx.c])
  }

  /** A delivery whose reviews lack a parent rolls back, and never commits. */
  function Step(s: State, a: Action): State {
    match a
    case Begin(id, c) => if id in s.txs then s else s.(txs := s.txs[id := Tx(c, 0, map[], [])])
    case Advance(id) =>
      if id !in s.txs then s
      else if !Complete(s.txs[id].c) then s.(txs := s.txs - {id})
      else if Running(s.txs[id]) then Issue(s, id)
      else Publish(s, id)
    case Abort(id) => s.(txs := s.txs - {id})
  }

  function Run(acts: seq<Action>): State {
    if acts == [] then INIT else Step(Run(acts[..|acts| - 1]), acts[|acts| - 1])
  }

  // ---- the invariant ----

  /** Rows whose first version is their last. */
  predicate IsFinal(k: Key) {
    k.PersonAt? || k.MarkAt?
  }

  /** Each statement so far has its row locked, or resolved a login already linked. */
  ghost predicate Locked(db: Cells, own: Cells, ops: seq<Op>) {
    forall i :: 0 <= i < |ops| && !ops[i].Stage? ==>
      KeyFor(ops[i]) in own || (ops[i].Resolve? && KeyFor(ops[i]) in db)
  }

  ghost predicate FinalsNew(db: Cells, own: Cells) {
    forall k :: k in own && IsFinal(k) ==> k !in db
  }

  /** A transaction's own rows are what its statements so far make of the committed ones. */
  ghost predicate TxOk(db: Cells, tx: Tx) {
    Complete(tx.c) ==>
      && tx.done <= |Plan(tx.c)|
      && ApplyOps(db, Plan(tx.c)[..tx.done]) == db + tx.own
      && Staged(Plan(tx.c)[..tx.done]) == tx.staged
      && Locked(db, tx.own, Plan(tx.c)[..tx.done])
      && FinalsNew(db, tx.own)
  }

  ghost predicate LocksApart(txs: map<TxId, Tx>) {
    forall t, u :: t in txs && u in txs && t != u ==> txs[t].own.Keys !! txs[u].own.Keys
  }

  ghost predicate OwnNothing(txs: map<TxId, Tx>) {
    forall t :: t in txs && !Complete(txs[t].c) ==> txs[t].own == map[]
  }

  ghost predicate Logged(db: Cells, outbox: seq<Event>, log: seq<Commit>) {
    && AllComplete(log) && Holds(db, Meaning(log)) && outbox == AllEvents(log)
    && NoRepeats(log) && MarkedExactly(Meaning(log).deliveries, log)
  }

  ghost predicate Inv(s: State) {
    && Logged(s.db, s.outbox, s.log)
    && (forall t :: t in s.txs ==> TxOk(s.db, s.txs[t]))
    && LocksApart(s.txs) && OwnNothing(s.txs)
  }

  lemma PlanStep(tx: Tx)
    requires Running(tx)
    ensures Plan(tx.c)[..tx.done + 1] == Plan(tx.c)[..tx.done] + [Plan(tx.c)[tx.done]]
  {
    hide Plan;
  }

  lemma OneMoreOp(m: Cells, ops: seq<Op>, op: Op)
    ensures ApplyOps(m, ops + [op]) == ApplyOp(ApplyOps(m, ops), op)
    ensures Staged(ops + [op]) == Staged(ops) + if op.Stage? then [op.event] else []
  {
    assert (ops + [op])[..|ops|] == ops;
  }

  lemma LockedOneMore(db: Cells, own: Cells, own': Cells, ops: seq<Op>, op: Op)
    requires Locked(db, own, ops) && own.Keys <= own'.Keys
    requires !op.Stage? ==> KeyFor(op) in own' || (op.Resolve? && KeyFor(op) in db)
    ensures Locked(db, own', ops + [op])
  {
  }

  lemma StageKeepsOk(db: Cells, tx: Tx)
    requires TxOk(db, tx) && Running(tx) && Plan(tx.c)[tx.done].Stage?
    ensures TxOk(db, tx.(done := tx.done + 1, staged := tx.staged + [Plan(tx.c)[tx.done].event]))
  {
    hide Plan, ApplyOps, Staged, Locked, FinalsNew, Complete, KeyFor, Written, Found;
    var ops, op := Plan(tx.c)[..tx.done], Plan(tx.c)[tx.done];
    PlanStep(tx);
    OneMoreOp(db, ops, op);
    LockedOneMore(db, tx.own, tx.own, ops, op);
  }

  lemma ResolvedKeepsOk(db: Cells, tx: Tx)
    requires TxOk(db, tx) && Running(tx)
    requires var op := Plan(tx.c)[tx.done]; op.Resolve? && KeyFor(op) in db + tx.own
    ensures TxOk(db, tx.(done := tx.done + 1))
  {
    var ops, op := Plan(tx.c)[..tx.done], Plan(tx.c)[tx.done];
    PlanStep(tx);
    OneMoreOp(db, ops, op);
    LockedOneMore(db, tx.own, tx.own, ops, op);
    hide Plan, ApplyOps, Staged, Locked, FinalsNew, Complete;
    var seen, key := db + tx.own, KeyFor(op);
    assert seen[key := seen[key]] == seen;
    assert tx.staged + [] == tx.staged;
  }

  function AfterWrite(db: Cells, tx: Tx): Tx
    requires Running(tx) && !Plan(tx.c)[tx.done].Stage?
  {
    var op := Plan(tx.c)[tx.done];
    tx.(done := tx.done + 1, own := tx.own[KeyFor(op) := Written(op, Found(db + tx.own, KeyFor(op)))])
  }

  lemma WriteKeepsOk(db: Cells, tx: Tx)
    requires TxOk(db, tx) && Running(tx) && !Plan(tx.c)[tx.done].Stage?
    requires IsFinal(KeyFor(Plan(tx.c)[tx.done])) ==> KeyFor(Plan(tx.c)[tx.done]) !in db
    ensures TxOk(db, AfterWrite(db, tx))
  {
    var ops, op := Plan(tx.c)[..tx.done], Plan(tx.c)[tx.done];
    var own' := AfterWrite(db, tx).own;
    PlanStep(tx);
    OneMoreOp(db, ops, op);
    LockedOneMore(db, tx.own, own', ops, op);
    hide Plan, ApplyOps, Staged, Locked, Complete, Written;
    assert db + own' == (db + tx.own)[KeyFor(op) := Written(op, Found(db + tx.own, KeyFor(op)))];
    assert tx.staged + [] == tx.staged;
  }

  /** Rows nobody writes meanwhile pass through. */
  lemma {:induction false} FrameOps(m: Cells, a: Cells, ops: seq<Op>)
    requires forall i :: 0 <= i < |ops| && !ops[i].Stage? ==> KeyFor(ops[i]) !in a
    ensures ApplyOps(m + a, ops) == ApplyOps(m, ops) + a
  {
    if ops != [] {
      var front, op := ops[..|ops| - 1], ops[|ops| - 1];
      FrameOps(m, a, front);
      assert op == ops[|ops| - 1];
      FrameOp(ApplyOps(m, front), a, op);
    }
  }

  lemma FrameOp(m: Cells, a: Cells, op: Op)
    requires op.Stage? || KeyFor(op) !in a
    ensures ApplyOp(m + a, op) == ApplyOp(m, op) + a
  {
    hide Written;
    if !op.Stage? {
      assert Found(m + a, KeyFor(op)) == Found(m, KeyFor(op));
    }
  }

  /** Another transaction's commit leaves what this one has done standing. */
  lemma OtherStaysOk(db: Cells, a: Cells, tx: Tx)
    requires TxOk(db, tx) && a.Keys !! tx.own.Keys && FinalsNew(db, a)
    ensures TxOk(db + a, tx)
  {
    if Complete(tx.c) {
      var ops := Plan(tx.c)[..tx.done];
      hide Plan, Complete, ApplyOps, Staged, Locked, FinalsNew;
      KeysApart(db, a, tx.own, ops);
      FrameOps(db, a, ops);
      hide KeyFor;
      Swap(db, tx.own, a);
    }
  }

  lemma Swap(db: Cells, own: Cells, a: Cells)
    requires a.Keys !! own.Keys
    ensures db + own + a == db + a + own
  {
  }

  lemma KeysApart(db: Cells, a: Cells, own: Cells, ops: seq<Op>)
    requires Locked(db, own, ops) && a.Keys !! own.Keys && FinalsNew(db, a) && FinalsNew(db, own)
    ensures forall i :: 0 <= i < |ops| && !ops[i].Stage? ==> KeyFor(ops[i]) !in a
    ensures Locked(db + a, own, ops) && FinalsNew(db + a, own)
  {
  }

  /** A statement that moves one transaction on. */
  lemma MoveKeepsInv(s: State, id: TxId, tx: Tx)
    requires Inv(s) && id in s.txs && TxOk(s.db, tx) && tx.c == s.txs[id].c && Complete(tx.c)
    requires forall k :: k in tx.own ==> k in s.txs[id].own || !Held(s.txs, id, k)
    ensures Inv(s.(txs := s.txs[id := tx]))
  {
    hide Logged, TxOk, Complete;
  }

  lemma DropKeepsInv(s: State, id: TxId)
    requires Inv(s)
    ensures Inv(s.(txs := s.txs - {id}))
  {
    hide Logged, TxOk, Complete;
  }

  lemma StagingKeepsInv(s: State, id: TxId)
    requires Inv(s) && id in s.txs && Running(s.txs[id]) && Plan(s.txs[id].c)[s.txs[id].done].Stage?
    ensures Inv(Issue(s, id))
  {
    var tx := s.txs[id];
    hide Complete, Plan, Held;
    assert TxOk(s.db, tx);
    StageKeepsOk(s.db, tx);
    hide TxOk;
    var tx' := tx.(done := tx.done + 1, staged := tx.staged + [Plan(tx.c)[tx.done].event]);
    assert Issue(s, id) == s.(txs := s.txs[id := tx']);
    MoveKeepsInv(s, id, tx');
  }

  lemma ResolvingKeepsInv(s: State, id: TxId)
    requires Inv(s) && id in s.txs && Running(s.txs[id])
    requires var op := Plan(s.txs[id].c)[s.txs[id].done]; op.Resolve? && KeyFor(op) in s.db + s.txs[id].own
    ensures Inv(Issue(s, id))
  {
    var tx := s.txs[id];
    hide Complete, Plan, Held, Written;
    assert TxOk(s.db, tx);
    ResolvedKeepsOk(s.db, tx);
    hide TxOk;
    assert Issue(s, id) == s.(txs := s.txs[id := tx.(done := tx.done + 1)]);
    MoveKeepsInv(s, id, tx.(done := tx.done + 1));
  }

  lemma WritingKeepsInv(s: State, id: TxId)
    requires Inv(s) && id in s.txs && Running(s.txs[id])
    requires var op := Plan(s.txs[id].c)[s.txs[id].done];
             && !op.Stage? && !Held(s.txs, id, KeyFor(op))
             && (op.Mark? ==> KeyFor(op) !in s.db) && (op.Resolve? ==> KeyFor(op) !in s.db + s.txs[id].own)
    ensures Inv(Issue(s, id))
  {
    var tx := s.txs[id];
    hide Complete, Plan, Held, Written;
    assert TxOk(s.db, tx);
    WriteKeepsOk(s.db, tx);
    hide TxOk;
    assert Issue(s, id) == s.(txs := s.txs[id := AfterWrite(s.db, tx)]);
    MoveKeepsInv(s, id, AfterWrite(s.db, tx));
  }

  lemma IssueKeepsInv(s: State, id: TxId)
    requires Inv(s) && id in s.txs && Running(s.txs[id])
    ensures Inv(Issue(s, id))
  {
    var tx := s.txs[id];
    var op := Plan(tx.c)[tx.done];
    hide Inv, Complete, Plan, Held, Written;
    if op.Stage? {
      StagingKeepsInv(s, id);
    } else if op.Mark? && KeyFor(op) in s.db {
      DropKeepsInv(s, id);
    } else if op.Resolve? && KeyFor(op) in s.db + tx.own {
      ResolvingKeepsInv(s, id);
    } else if !Held(s.txs, id, KeyFor(op)) {
      WritingKeepsInv(s, id);
    }
  }

  /** A finished delivery with an id has marked it, and nobody had committed the mark. */
  lemma FinishedIsFresh(db: Cells, tx: Tx)
    requires Complete(tx.c) && TxOk(db, tx) && tx.done == |Plan(tx.c)| && tx.c.deliveryId != ""
    ensures MarkAt(DeliveryKey(tx.c.tenant, tx.c.deliveryId)) !in db
  {
    hide ApplyOps, Staged, Complete, WorkOps, ReviewOps, CheckOps, CommentOps;
    var plan := Plan(tx.c);
    assert plan[0] == Mark(DeliveryKey(tx.c.tenant, tx.c.deliveryId), tx.c.eventType);
    assert plan[..tx.done][0] == plan[0];
    hide Plan;
    assert KeyFor(plan[..tx.done][0]) in tx.own;
  }

  lemma PublishKeepsLog(s: State, id: TxId)
    requires Inv(s) && id in s.txs && Complete(s.txs[id].c) && !Running(s.txs[id])
    ensures var s' := Publish(s, id); Logged(s'.db, s'.outbox, s'.log)
  {
    var tx, v := s.txs[id], Meaning(s.log);
    var c := tx.c;
    assert TxOk(s.db, tx);
    assert Plan(c)[..tx.done] == Plan(c);
    PlanRealizesApply(s.db, v, c);
    if c.deliveryId != "" {
      FinishedIsFresh(s.db, tx);
      assert DeliveryKey(c.tenant, c.deliveryId) !in v.deliveries;
    }
    hide Plan, ApplyOps, Staged, Complete, Holds, Locked, FinalsNew, EventsOf, MarkedExactly, NoRepeats;
    MeaningOfOneMore(s.log, c);
    MarkedOneMore(v.deliveries, s.log, c);
    FreshDoesNotRepeat(v.deliveries, s.log, c);
    assert (s.log + [c])[..|s.log|] == s.log;
  }

  lemma PublishKeepsInv(s: State, id: TxId)
    requires Inv(s) && id in s.txs && Complete(s.txs[id].c) && !Running(s.txs[id])
    ensures Inv(Publish(s, id))
  {
    PublishKeepsLog(s, id);
    var tx, s' := s.txs[id], Publish(s, id);
    assert TxOk(s.db, tx);
    assert FinalsNew(s.db, tx.own);
    hide Logged, TxOk, Complete, Running, FinalsNew;
    forall u | u in s'.txs ensures TxOk(s'.db, s'.txs[u]) {
      OtherStaysOk(s.db, tx.own, s.txs[u]);
    }
  }

  lemma BeginKeepsInv(s: State, id: TxId, c: Commit)
    requires Inv(s) && id !in s.txs
    ensures Inv(s.(txs := s.txs[id := Tx(c, 0, map[], [])]))
  {
    var tx := Tx(c, 0, map[], []);
    FreshTxOk(s.db, c);
    hide Logged, TxOk, Complete;
  }

  lemma FreshTxOk(db: Cells, c: Commit)
    ensures TxOk(db, Tx(c, 0, map[], []))
  {
    hide Plan, Complete;
    if Complete(c) {
      assert Plan(c)[..0] == [];
      assert db + map[] == db;
    }
  }

  lemma StepKeepsInv(s: State, a: Action)
    requires Inv(s)
    ensures Inv(Step(s, a))
  {
    hide Inv, Issue, Publish, Complete, Plan;
    match a
    case Begin(id, c) =>
      if id !in s.txs {
        BeginKeepsInv(s, id, c);
      }
    case Advance(id) =>
      if id in s.txs {
        if !Complete(s.txs[id].c) {
          DropKeepsInv(s, id);
        } else if Running(s.txs[id]) {
          IssueKeepsInv(s, id);
        } else {
          PublishKeepsInv(s, id);
        }
      }
    case Abort(id) => DropKeepsInv(s, id);
  }

  lemma {:induction false} RunKeepsInv(acts: seq<Action>)
    ensures Inv(Run(acts))
  {
    hide Step, Inv;
    if acts == [] {
      InitKeepsInv();
    } else {
      RunKeepsInv(acts[..|acts| - 1]);
      StepKeepsInv(Run(acts[..|acts| - 1]), acts[|acts| - 1]);
    }
  }

  lemma InitKeepsInv()
    ensures Inv(INIT)
  {
  }

  /** Over every interleaving and abort, the committed rows are those of the committed deliveries
      applied once each, one after the other in commit order; the outbox holds their events in that
      order; and no non-empty delivery id commits twice. */
  lemma RacingExactlyOnce(acts: seq<Action>)
    ensures var s := Run(acts);
            && AllComplete(s.log) && Holds(s.db, Meaning(s.log)) && s.outbox == AllEvents(s.log)
            && NoRepeats(s.log)
  {
    RunKeepsInv(acts);
    hide Run, Holds, TxOk, NoRepeats, MarkedExactly;
  }

  ghost predicate Begun(acts: seq<Action>, c: Commit) {
    exists i :: 0 <= i < |acts| && acts[i].Begin? && acts[i].c == c
  }

  lemma BegunStays(acts: seq<Action>, a: Action, c: Commit)
    requires Begun(acts, c)
    ensures Begun(acts + [a], c)
  {
    var i :| 0 <= i < |acts| && acts[i].Begin? && acts[i].c == c;
    assert (acts + [a])[i] == acts[i];
  }

  lemma StepContent(s: State, a: Action)
    ensures var s' := Step(s, a);
            && (forall t :: t in s'.txs ==>
                  (t in s.txs && s'.txs[t].c == s.txs[t].c) || (a.Begin? && s'.txs[t].c == a.c))
            && (s'.log == s.log || (a.Advance? && a.id in s.txs && s'.log == s.log + [s.txs[a.id].c]))
  {
    hide Complete, Plan, Written, Held;
  }

  /** Whatever commits was begun with exactly that content. */
  lemma {:induction false} CommitsWereBegun(acts: seq<Action>)
    ensures forall c :: c in Run(acts).log ==> Begun(acts, c)
    ensures forall t :: t in Run(acts).txs ==> Begun(acts, Run(acts).txs[t].c)
  {
    if acts != [] {
      var before, a := acts[..|acts| - 1], acts[|acts| - 1];
      CommitsWereBegun(before);
      StepContent(Run(before), a);
      hide Step;
      assert acts == before + [a];
      assert a.Begin? ==> Begun(acts, a.c) by {
        assert acts[|before|] == a;
      }
      forall c | Begun(before, c) ensures Begun(acts, c) {
        BegunStays(before, a, c);
      }
      hide Begun;
    }
  }

  // ---- progress ----

  lemma RunOneMore(acts: seq<Action>, a: Action)
    ensures Run(acts + [a]) == Step(Run(acts), a)
  {
    assert (acts + [a])[..|acts|] == acts;
  }

  /** Aborting all others leaves this transaction alone, and nothing of theirs behind. */
  lemma {:induction false} AbortOthers(acts: seq<Action>, id: TxId) returns (more: seq<Action>)
    requires id in Run(acts).txs
    ensures forall n :: 0 <= n < |more| ==> more[n].Abort? && more[n].id != id
    ensures var s := Run(acts); Run(acts + more) == s.(txs := map[id := s.txs[id]])
    decreases |Run(acts).txs|
  {
    var s := Run(acts);
    hide Run, Step;
    if u :| u in s.txs && u != id {
      RunOneMore(acts, Abort(u));
      assert Step(s, Abort(u)) == s.(txs := s.txs - {u}) by {
        StepAborts(s, u);
      }
      assert |s.txs - {u}| < |s.txs| by {
        Shrinks(s.txs, u);
      }
      var rest := AbortOthers(acts + [Abort(u)], id);
      more := [Abort(u)] + rest;
      assert acts + more == acts + [Abort(u)] + rest;
    } else {
      more := [];
      assert acts + more == acts;
      assert s.txs == map[id := s.txs[id]];
    }
  }

  lemma StepAborts(s: State, id: TxId)
    ensures Step(s, Abort(id)) == s.(txs := s.txs - {id})
  {
  }

  lemma Shrinks(txs: map<TxId, Tx>, id: TxId)
    requires id in txs
    ensures |txs - {id}| < |txs|
  {
    assert txs == (txs - {id})[id := txs[id]];
  }

  /** The transaction is over: committed, as the last one, or found to repeat a committed delivery. */
  ghost predicate IsDone(s: State, s': State, c: Commit) {
    && s'.txs == map[]
    && (s'.log == s.log + [c]
        || (c.deliveryId != "" && MarkAt(DeliveryKey(c.tenant, c.deliveryId)) in s.db && s'.log == s.log))
  }

  lemma AloneStep(s: State, id: TxId)
    requires s.txs.Keys == {id} && Complete(s.txs[id].c) && (Running(s.txs[id]) ==> PlannedMark(s.txs[id]))
    ensures var tx, s' := s.txs[id], Step(s, Advance(id));
            || IsDone(s, s', tx.c)
            || (Running(tx) && s'.txs.Keys == {id} && s'.txs[id].c == tx.c && s'.txs[id].done == tx.done + 1
                && s'.log == s.log && s'.db == s.db)
  {
    hide Plan, Complete, Written, Found;
    assert !exists u :: u in s.txs && u != id;
  }

  /** A statement of the plan that marks a delivery marks this one. */
  ghost predicate PlannedMark(tx: Tx)
    requires Running(tx)
  {
    var op := Plan(tx.c)[tx.done];
    op.Mark? ==> tx.c.deliveryId != "" && op.delivery == DeliveryKey(tx.c.tenant, tx.c.deliveryId)
  }

  lemma {:induction false} NoMarksIn(c: Commit)
    requires Complete(c)
    ensures forall i :: 0 <= i < |Plan(c)| && Plan(c)[i].Mark? ==>
              c.deliveryId != "" && Plan(c)[i].delivery == DeliveryKey(c.tenant, c.deliveryId)
  {
    WorkOpsMarkNothing(c.tenant, c.content.workItems);
    ReviewOpsMarkNothing(c.tenant, c.content.reviews, NodeKeys(c.tenant, c.content.workItems));
    OtherOpsMarkNothing(c.tenant, c.content.checkRuns, c.content.comments);
    hide WorkOps, ReviewOps, CheckOps, CommentOps, NodeKeys;
  }

  lemma {:induction false} WorkOpsMarkNothing(tenant: Tenant, items: seq<WorkItem>)
    ensures forall op :: op in WorkOps(tenant, items) ==> !op.Mark?
  {
    if items != [] {
      WorkOpsMarkNothing(tenant, items[1..]);
    }
  }

  lemma {:induction false} ReviewOpsMarkNothing(tenant: Tenant, reviews: seq<Review>, keys: map<string, WorkKey>)
    requires ParentsIn(keys, reviews)
    ensures forall op :: op in ReviewOps(tenant, reviews, keys) ==> !op.Mark?
  {
    if reviews != [] {
      ReviewOpsMarkNothing(tenant, reviews[1..], keys);
    }
  }

  lemma {:induction false} OtherOpsMarkNothing(tenant: Tenant, checks: seq<CheckRun>, comments: seq<Comment>)
    ensures forall op :: op in CheckOps(tenant, checks) || op in CommentOps(tenant, comments) ==> !op.Mark?
    decreases |checks| + |comments|
  {
    if checks != [] {
      OtherOpsMarkNothing(tenant, checks[1..], comments);
    } else if comments != [] {
      OtherOpsMarkNothing(tenant, checks, comments[1..]);
    }
  }

  lemma {:induction false} AloneFinishes(acts: seq<Action>, id: TxId, steps: nat) returns (more: seq<Action>)
    requires var s := Run(acts);
             && s.txs.Keys == {id} && Complete(s.txs[id].c)
             && steps == if Running(s.txs[id]) then |Plan(s.txs[id].c)| - s.txs[id].done else 0
    ensures forall n :: 0 <= n < |more| ==> more[n] == Advance(id)
    ensures IsDone(Run(acts), Run(acts + more), Run(acts).txs[id].c)
    decreases steps
  {
    var s := Run(acts);
    var c := s.txs[id].c;
    NoMarksIn(c);
    AloneStep(s, id);
    RunOneMore(acts, Advance(id));
    hide Run, Plan, Complete, Step;
    more := [Advance(id)];
    if !IsDone(s, Run(acts + more), c) {
      var s1 := Run(acts + more);
      var rest := AloneFinishes(acts + more, id, if Running(s1.txs[id]) then steps - 1 else 0);
      assert acts + more + rest == acts + (more + rest);
      more := more + rest;
    }
  }

  /** However transactions race and wait for each other, each of a complete delivery can still
      commit: aborting the others, which leaves nothing of them, there is nothing it waits for, and
      its own statements take it to its commit unless its delivery has been committed before. */
  lemma EveryTransactionCanCommit(acts: seq<Action>, id: TxId) returns (aborts: seq<Action>, own: seq<Action>)
    requires id in Run(acts).txs && Complete(Run(acts).txs[id].c)
    ensures forall n :: 0 <= n < |aborts| ==> aborts[n].Abort? && aborts[n].id != id
    ensures forall n :: 0 <= n < |own| ==> own[n] == Advance(id)
    ensures IsDone(Run(acts), Run(acts + aborts + own), Run(acts).txs[id].c)
  {
    aborts := AbortOthers(acts, id);
    var tx := Run(acts).txs[id];
    hide Run, Plan, Complete;
    own := AloneFinishes(acts + aborts, id, if Running(tx) then |Plan(tx.c)| - tx.done else 0);
  }
}
