/**
  Racing normalizer transactions, statement by statement: the delivery mark, the
  lookup and creation of a reviewer, and the review row. Any number of transactions
  interleave under READ COMMITTED; each may abort at any point. An insert that meets
  an uncommitted row with the same unique key waits for that transaction to end.
 */
module TxRace {
  import opened Prelude
  import opened Schema

  type TxId = nat

  datatype Job = Job(sourceId: string, login: string)

  /** A review row with the login it was resolved from. */
  datatype Stored = Stored(login: string, reviewer: Id)

  /** Rows: the committed ones, or those one transaction has written so far. */
  datatype Rows = Rows(
    people: map<Id, Tenant>,
    links: map<PersonKey, Id>,
    reviews: map<SourceKey, Stored>,
    marks: set<DeliveryKey>)

  const NO_ROWS := Rows(map[], map[], map[], {})

  /** The statement a transaction will issue next. */
  datatype Next =
    | Mark
    | Select                            // markDelivery done; take up the next review, or commit
    | CreatePerson(job: Job)
    | CreateLink(job: Job, id: Id)
    | Reread(job: Job)
    | WriteReview(job: Job, id: Id)
    | Commit

  /** done: the reviews already written; todo: those not yet taken up. */
  datatype Tx = Tx(tenant: Tenant, deliveryId: string, done: seq<Job>, todo: seq<Job>, next: Next, own: Rows)

  datatype Committed = Committed(tenant: Tenant, deliveryId: string, reviews: seq<Job>)

  /** log: the committed transactions, in commit order. */
  datatype State = State(db: Rows, txs: map<TxId, Tx>, nextId: Id, log: seq<Committed>)

  const INIT := State(NO_ROWS, map[], 0, [])

  datatype Action =
    | Begin(tx: TxId, tenant: Tenant, deliveryId: string, reviews: seq<Job>)
    | Advance(tx: TxId)
    | Abort(tx: TxId)

  function Merge(db: Rows, own: Rows): Rows {
    Rows(db.people + own.people, db.links + own.links, db.reviews + own.reviews, db.marks + own.marks)
  }

  function Seen(s: State, t: TxId): Rows
    requires t in s.txs
  {
    Merge(s.db, s.txs[t].own)
  }

  predicate LinkHeld(s: State, t: TxId, key: PersonKey) {
    exists u :: u in s.txs && u != t && key in s.txs[u].own.links
  }

  predicate ReviewHeld(s: State, t: TxId, key: SourceKey) {
    exists u :: u in s.txs && u != t && key in s.txs[u].own.reviews
  }

  predicate MarkHeld(s: State, t: TxId, key: DeliveryKey) {
    exists u :: u in s.txs && u != t && key in s.txs[u].own.marks
  }

  function Put(s: State, t: TxId, tx: Tx): State {
    s.(txs := s.txs[t := tx])
  }

  function Drop(s: State, t: TxId): State {
    s.(txs := s.txs - {t})
  }

  function Publish(s: State, t: TxId): State
    requires t in s.txs
  {
    var tx := s.txs[t];
    State(Seen(s, t), s.txs - {t}, s.nextId, s.log + [Committed(tx.tenant, tx.deliveryId, tx.done)])
  }

  function AfterReview(tx: Tx): Tx
    requires tx.next.WriteReview?
  {
    var key := SourceKey(tx.tenant, tx.next.job.sourceId);
    tx.(next := Select, done := tx.done + [tx.next.job],
        own := tx.own.(reviews := tx.own.reviews[key := Stored(tx.next.job.login, tx.next.id)]))
  }

  function AfterLink(tx: Tx): Tx
    requires tx.next.CreateLink?
  {
    var key := LinkKey(tx.tenant, tx.next.job.login);
    tx.(next := WriteReview(tx.next.job, tx.next.id), own := tx.own.(links := tx.own.links[key := tx.next.id]))
  }

  /** Issue the transaction's next statement; a statement that must wait changes nothing. */
  function Issue(s: State, t: TxId): State
    requires t in s.txs
  {
    var tx, seen := s.txs[t], Seen(s, t);
    match tx.next
    case Mark =>
      var key := DeliveryKey(tx.tenant, tx.deliveryId);
      if tx.deliveryId == "" then Put(s, t, tx.(next := Select))
      else if key in s.db.marks then Drop(s, t)
      else if MarkHeld(s, t, key) then s
      else Put(s, t, tx.(next := Select, own := tx.own.(marks := tx.own.marks + {key})))
    case Select =>
      if tx.todo == [] then Put(s, t, tx.(next := Commit))
      else
        var job := tx.todo[0];
        var key := LinkKey(tx.tenant, job.login);
        Put(s, t, tx.(todo := tx.todo[1..],
                      next := if key in seen.links then WriteReview(job, seen.links[key]) else CreatePerson(job)))
    case CreatePerson(job) =>
      Put(s.(nextId := s.nextId + 1), t,
          tx.(next := CreateLink(job, s.nextId), own := tx.own.(people := tx.own.people[s.nextId := tx.tenant])))
    case CreateLink(job, id) =>
      var key := LinkKey(tx.tenant, job.login);
      if key in seen.links then Put(s, t, tx.(next := Reread(job)))
      else if LinkHeld(s, t, key) then s
      else Put(s, t, AfterLink(tx))
    case Reread(job) =>
      var key := LinkKey(tx.tenant, job.login);
      if key in seen.links then Put(s, t, tx.(next := WriteReview(job, seen.links[key]))) else Drop(s, t)
    case WriteReview(job, id) =>
      var key := SourceKey(tx.tenant, job.sourceId);
      if key in seen.reviews then Put(s, t, tx.(next := Select, done := tx.done + [job]))
      else if ReviewHeld(s, t, key) then s
      else Put(s, t, AfterReview(tx))
    case Commit => Publish(s, t)
  }

  function Step(s: State, a: Action): State {
    match a
    case Begin(t, tenant, deliveryId, reviews) =>
      if t in s.txs then s else Put(s, t, Tx(tenant, deliveryId, [], reviews, Mark, NO_ROWS))
    case Advance(t) => if t in s.txs then Issue(s, t) else s
    case Abort(t) => Drop(s, t)
  }

  function Run(acts: seq<Action>): State {
    if acts == [] then INIT else Step(Run(acts[..|acts| - 1]), acts[|acts| - 1])
  }

  // ---- the invariant ----

  type People = map<Id, Tenant>
  type Links = map<PersonKey, Id>
  type Reviews = map<SourceKey, Stored>

  /** Links name existing contributors of their tenant. */
  ghost predicate LinksExist(links: Links, people: People) {
    forall k :: k in links ==> links[k] in people && people[links[k]] == k.tenant
  }

  /** No two logins share a contributor. */
  ghost predicate LinksDiffer(links: Links) {
    forall j, k :: j in links && k in links && links[j] == links[k] ==> j == k
  }

  ghost predicate Linked(links: Links, key: PersonKey, id: Id) {
    key in links && links[key] == id
  }

  /** Reviews carry the reviewer their login is linked to. */
  ghost predicate ReviewsLinked(reviews: Reviews, links: Links) {
    forall k :: k in reviews ==> Linked(links, LinkKey(k.tenant, reviews[k].login), reviews[k].reviewer)
  }

  ghost predicate Sound(rows: Rows) {
    LinksExist(rows.links, rows.people) && LinksDiffer(rows.links) && ReviewsLinked(rows.reviews, rows.links)
  }

  ghost predicate Unlinked(links: Links, id: Id) {
    forall k :: k in links ==> links[k] != id
  }

  /** No unique key is in both. */
  ghost predicate Apart(a: Rows, b: Rows) {
    && a.people.Keys !! b.people.Keys && a.links.Keys !! b.links.Keys
    && a.reviews.Keys !! b.reviews.Keys && a.marks !! b.marks
  }

  ghost predicate Drawn(rows: Rows, limit: Id) {
    forall i :: i in rows.people ==> i < limit
  }

  /** A transaction links only contributors it created. */
  ghost predicate LinksOwn(own: Rows) {
    forall k :: k in own.links ==> own.links[k] in own.people
  }

  /** What the transaction knows about the statement it is about to issue. */
  ghost predicate Prepared(seen: Rows, tx: Tx) {
    match tx.next
    case CreateLink(job, id) =>
      id in tx.own.people && tx.own.people[id] == tx.tenant && Unlinked(seen.links, id)
    case Reread(job) => LinkKey(tx.tenant, job.login) in seen.links
    case WriteReview(job, id) => Linked(seen.links, LinkKey(tx.tenant, job.login), id)
    case _ => true
  }

  ghost predicate MarksOwn(tx: Tx) {
    tx.own.marks == if tx.next.Mark? || tx.deliveryId == "" then {} else {DeliveryKey(tx.tenant, tx.deliveryId)}
  }

  ghost predicate TxOk(db: Rows, tx: Tx, limit: Id) {
    && Apart(db, tx.own) && Drawn(tx.own, limit) && LinksOwn(tx.own) && MarksOwn(tx)
    && Sound(Merge(db, tx.own)) && Prepared(Merge(db, tx.own), tx)
  }

  /** The non-empty delivery ids of the committed transactions. */
  function Ids(log: seq<Committed>): seq<DeliveryKey> {
    if log == [] then []
    else
      var before, last := Ids(log[..|log| - 1]), log[|log| - 1];
      if last.deliveryId == "" then before else before + [DeliveryKey(last.tenant, last.deliveryId)]
  }

  ghost predicate Logged(marks: set<DeliveryKey>, ids: seq<DeliveryKey>) {
    && (forall k :: k in marks <==> k in ids)
    && (forall i, j :: 0 <= i < j < |ids| ==> ids[i] != ids[j])
  }

  ghost predicate AllApart(txs: map<TxId, Tx>) {
    forall t, u :: t in txs && u in txs && t != u ==> Apart(txs[t].own, txs[u].own)
  }

  ghost predicate Inv(s: State) {
    && Sound(s.db) && Drawn(s.db, s.nextId) && Logged(s.db.marks, Ids(s.log))
    && (forall t :: t in s.txs ==> TxOk(s.db, s.txs[t], s.nextId))
    && AllApart(s.txs)
  }

  // ---- one statement ----

  /** Own rows that are new to the database and to every other transaction. */
  lemma PutKeepsInv(s: State, t: TxId, tx: Tx, limit: Id)
    requires Inv(s) && t in s.txs && s.nextId <= limit
    requires TxOk(s.db, tx, limit)
    requires forall u :: u in s.txs && u != t ==> Apart(tx.own, s.txs[u].own)
    ensures Inv(Put(s, t, tx).(nextId := limit))
  {
    hide Sound, LinksOwn, MarksOwn, Prepared;
    forall u | u in s.txs && u != t
      ensures Apart(s.txs[u].own, tx.own)
    {
      ApartFlips(tx.own, s.txs[u].own);
    }
    hide Apart;
  }

  lemma ApartFlips(a: Rows, b: Rows)
    requires Apart(a, b)
    ensures Apart(b, a)
  {
  }

  lemma DropKeepsInv(s: State, t: TxId)
    requires Inv(s)
    ensures Inv(Drop(s, t))
  {
    hide Sound, TxOk, Apart, Logged;
  }

  lemma SameOwn(s: State, t: TxId, tx: Tx)
    requires Inv(s) && t in s.txs && tx.own == s.txs[t].own
    requires TxOk(s.db, tx, s.nextId)
    ensures Inv(Put(s, t, tx))
  {
    hide TxOk, Apart;
    PutKeepsInv(s, t, tx, s.nextId);
    assert Put(s, t, tx).(nextId := s.nextId) == Put(s, t, tx);
  }

  lemma MarkKeepsInv(s: State, t: TxId)
    requires Inv(s) && t in s.txs && s.txs[t].next.Mark?
    ensures Inv(Issue(s, t))
  {
    var tx := s.txs[t];
    var key := DeliveryKey(tx.tenant, tx.deliveryId);
    hide Sound;
    if tx.deliveryId == "" {
      SameOwn(s, t, tx.(next := Select));
    } else if key in s.db.marks {
      DropKeepsInv(s, t);
    } else if !MarkHeld(s, t, key) {
      var tx' := tx.(next := Select, own := tx.own.(marks := tx.own.marks + {key}));
      assert Merge(s.db, tx'.own) == Merge(s.db, tx.own).(marks := s.db.marks + tx'.own.marks);
      SoundAnyMarks(Merge(s.db, tx.own), s.db.marks + tx'.own.marks);
      PutKeepsInv(s, t, tx', s.nextId);
    }
  }

  lemma SoundAnyMarks(rows: Rows, marks: set<DeliveryKey>)
    requires Sound(rows)
    ensures Sound(rows.(marks := marks))
  {
  }

  lemma SelectKeepsInv(s: State, t: TxId)
    requires Inv(s) && t in s.txs && s.txs[t].next.Select?
    ensures Inv(Issue(s, t))
  {
    var tx := s.txs[t];
    hide Sound, Apart, Drawn, LinksOwn;
    if tx.todo == [] {
      SameOwn(s, t, tx.(next := Commit));
    } else {
      var tx' := Issue(s, t).txs[t];
      SameOwn(s, t, tx');
    }
  }

  lemma UpdateRight<K, V>(a: map<K, V>, b: map<K, V>, k: K, v: V)
    ensures a + b[k := v] == (a + b)[k := v]
  {
  }

  /** A contributor with a fresh id disturbs nobody. */
  lemma WithPerson(db: Rows, own: Rows, id: Id, tenant: Tenant, limit: Id)
    requires Apart(db, own) && Drawn(db, limit) && Drawn(own, limit) && LinksOwn(own) && id == limit
    requires Sound(Merge(db, own))
    ensures var own' := own.(people := own.people[id := tenant]);
            && Apart(db, own') && Drawn(own', limit + 1) && LinksOwn(own') && Sound(Merge(db, own'))
            && Unlinked(Merge(db, own').links, id)
  {
    UpdateRight(db.people, own.people, id, tenant);
    assert id !in db.people + own.people;
    PersonKeepsLinks(db.links + own.links, db.people + own.people, id, tenant);
    hide LinksExist, LinksDiffer, ReviewsLinked, Unlinked;
  }

  lemma PersonKeepsLinks(links: Links, people: People, id: Id, tenant: Tenant)
    requires LinksExist(links, people) && id !in people
    ensures LinksExist(links, people[id := tenant]) && Unlinked(links, id)
  {
  }

  lemma ApartFromFresh(own: Rows, other: Rows, id: Id, tenant: Tenant)
    requires Apart(own, other) && Drawn(other, id)
    ensures Apart(own.(people := own.people[id := tenant]), other)
  {
  }

  lemma CreatePersonKeepsInv(s: State, t: TxId)
    requires Inv(s) && t in s.txs && s.txs[t].next.CreatePerson?
    ensures Inv(Issue(s, t))
  {
    var tx := s.txs[t];
    var tx' := Issue(s, t).txs[t];
    WithPerson(s.db, tx.own, s.nextId, tx.tenant, s.nextId);
    hide Sound, LinksOwn, Merge;
    assert TxOk(s.db, tx', s.nextId + 1);
    forall u | u in s.txs && u != t ensures Apart(tx'.own, s.txs[u].own) {
      ApartFromFresh(tx.own, s.txs[u].own, s.nextId, tx.tenant);
    }
    hide TxOk, Apart, Drawn;
    PutKeepsInv(s, t, tx', s.nextId + 1);
  }

  /** A link to an own contributor nothing else is linked to. */
  lemma WithLink(db: Rows, own: Rows, key: PersonKey, id: Id)
    requires Apart(db, own) && LinksOwn(own) && Sound(Merge(db, own))
    requires key !in Merge(db, own).links && id in own.people && own.people[id] == key.tenant
    requires Unlinked(Merge(db, own).links, id)
    ensures var own' := own.(links := own.links[key := id]);
            && Apart(db, own') && LinksOwn(own') && Sound(Merge(db, own')) && Linked(Merge(db, own').links, key, id)
  {
    UpdateRight(db.links, own.links, key, id);
    LinkKeepsLinks(db.links + own.links, db.people + own.people, db.reviews + own.reviews, key, id);
    hide LinksExist, LinksDiffer, ReviewsLinked, Unlinked;
  }

  lemma LinkKeepsLinks(links: Links, people: People, reviews: Reviews, key: PersonKey, id: Id)
    requires LinksExist(links, people) && LinksDiffer(links) && ReviewsLinked(reviews, links)
    requires key !in links && id in people && people[id] == key.tenant && Unlinked(links, id)
    ensures var links' := links[key := id];
            LinksExist(links', people) && LinksDiffer(links') && ReviewsLinked(reviews, links')
  {
  }

  lemma ApartFromLink(own: Rows, other: Rows, key: PersonKey, id: Id)
    requires Apart(own, other) && key !in other.links
    ensures Apart(own.(links := own.links[key := id]), other)
  {
  }

  lemma NewLinkKeepsInv(s: State, t: TxId)
    requires Inv(s) && t in s.txs && s.txs[t].next.CreateLink?
    requires var key := LinkKey(s.txs[t].tenant, s.txs[t].next.job.login);
             key !in Seen(s, t).links && !LinkHeld(s, t, key)
    ensures Inv(Put(s, t, AfterLink(s.txs[t])))
  {
    var tx := s.txs[t];
    var key, id, tx' := LinkKey(tx.tenant, tx.next.job.login), tx.next.id, AfterLink(tx);
    WithLink(s.db, tx.own, key, id);
    hide Sound, LinksOwn, Merge, Put;
    assert TxOk(s.db, tx', s.nextId);
    forall u | u in s.txs && u != t ensures Apart(tx'.own, s.txs[u].own) {
      ApartFromLink(tx.own, s.txs[u].own, key, id);
    }
    hide TxOk, Apart, Drawn, LinkHeld, Inv;
    PutKeepsInv(s, t, tx', s.nextId);
    SameState(s, t, tx');
  }

  lemma CreateLinkKeepsInv(s: State, t: TxId)
    requires Inv(s) && t in s.txs && s.txs[t].next.CreateLink?
    ensures Inv(Issue(s, t))
  {
    var tx := s.txs[t];
    var key := LinkKey(tx.tenant, tx.next.job.login);
    if key in Seen(s, t).links {
      hide Sound, Apart, Drawn, LinksOwn, Merge;
      SameOwn(s, t, tx.(next := Reread(tx.next.job)));
    } else if !LinkHeld(s, t, key) {
      hide Inv, Merge, AfterLink;
      NewLinkKeepsInv(s, t);
    } else {
      hide Inv, Merge;
    }
  }

  /** The second SELECT finds the winner's link. */
  lemma RereadKeepsInv(s: State, t: TxId)
    requires Inv(s) && t in s.txs && s.txs[t].next.Reread?
    ensures Inv(Issue(s, t)) && t in Issue(s, t).txs
  {
    var tx := s.txs[t];
    hide Sound, Apart, Drawn, LinksOwn, Merge;
    assert Prepared(Merge(s.db, tx.own), tx);
    SameOwn(s, t, Issue(s, t).txs[t]);
  }

  lemma WithReview(db: Rows, own: Rows, key: SourceKey, login: string, id: Id)
    requires Apart(db, own) && Sound(Merge(db, own)) && key !in Merge(db, own).reviews
    requires Linked(Merge(db, own).links, LinkKey(key.tenant, login), id)
    ensures var own' := own.(reviews := own.reviews[key := Stored(login, id)]);
            Apart(db, own') && Sound(Merge(db, own'))
  {
    UpdateRight(db.reviews, own.reviews, key, Stored(login, id));
    ReviewKeepsReviews(db.reviews + own.reviews, db.links + own.links, key, login, id);
    hide LinksExist, LinksDiffer, ReviewsLinked, Linked;
  }

  lemma ReviewKeepsReviews(reviews: Reviews, links: Links, key: SourceKey, login: string, id: Id)
    requires ReviewsLinked(reviews, links) && Linked(links, LinkKey(key.tenant, login), id)
    ensures ReviewsLinked(reviews[key := Stored(login, id)], links)
  {
  }

  lemma ApartFromReview(own: Rows, other: Rows, key: SourceKey, row: Stored)
    requires Apart(own, other) && key !in other.reviews
    ensures Apart(own.(reviews := own.reviews[key := row]), other)
  {
  }

  lemma ReviewedTxOk(db: Rows, tx: Tx, limit: Id)
    requires TxOk(db, tx, limit) && tx.next.WriteReview?
    requires SourceKey(tx.tenant, tx.next.job.sourceId) !in Merge(db, tx.own).reviews
    ensures TxOk(db, AfterReview(tx), limit)
  {
    WithReview(db, tx.own, SourceKey(tx.tenant, tx.next.job.sourceId), tx.next.job.login, tx.next.id);
    hide Sound, Merge, Apart;
  }

  lemma OthersApartFromReview(s: State, t: TxId, key: SourceKey, row: Stored)
    requires Inv(s) && t in s.txs && !ReviewHeld(s, t, key)
    ensures forall u :: u in s.txs && u != t ==>
              Apart(s.txs[t].own.(reviews := s.txs[t].own.reviews[key := row]), s.txs[u].own)
  {
    hide TxOk, Sound;
    forall u | u in s.txs && u != t
      ensures Apart(s.txs[t].own.(reviews := s.txs[t].own.reviews[key := row]), s.txs[u].own)
    {
      assert key !in s.txs[u].own.reviews;
      ApartFromReview(s.txs[t].own, s.txs[u].own, key, row);
    }
  }

  lemma NewReviewKeepsInv(s: State, t: TxId)
    requires Inv(s) && t in s.txs && s.txs[t].next.WriteReview?
    requires var key := SourceKey(s.txs[t].tenant, s.txs[t].next.job.sourceId);
             key !in Seen(s, t).reviews && !ReviewHeld(s, t, key)
    ensures Inv(Put(s, t, AfterReview(s.txs[t])))
  {
    var tx := s.txs[t];
    var key, row := SourceKey(tx.tenant, tx.next.job.sourceId), Stored(tx.next.job.login, tx.next.id);
    assert TxOk(s.db, tx, s.nextId);
    ReviewedTxOk(s.db, tx, s.nextId);
    hide TxOk, Merge, Apart, Put;
    OthersApartFromReview(s, t, key, row);
    assert AfterReview(tx).own == tx.own.(reviews := tx.own.reviews[key := row]);
    hide AfterReview, ReviewHeld, Inv;
    PutKeepsInv(s, t, AfterReview(tx), s.nextId);
    SameState(s, t, AfterReview(tx));
  }

  lemma SameState(s: State, t: TxId, tx: Tx)
    ensures Put(s, t, tx).(nextId := s.nextId) == Put(s, t, tx)
  {
  }

  lemma DoneWriting(db: Rows, tx: Tx, limit: Id)
    requires TxOk(db, tx, limit) && tx.next.WriteReview?
    ensures TxOk(db, tx.(next := Select, done := tx.done + [tx.next.job]), limit)
  {
    hide Sound, Apart, Drawn, LinksOwn, Merge;
  }

  lemma WriteReviewKeepsInv(s: State, t: TxId)
    requires Inv(s) && t in s.txs && s.txs[t].next.WriteReview?
    ensures Inv(Issue(s, t))
  {
    var tx := s.txs[t];
    var key := SourceKey(tx.tenant, tx.next.job.sourceId);
    if key in Seen(s, t).reviews {
      assert TxOk(s.db, tx, s.nextId);
      DoneWriting(s.db, tx, s.nextId);
      hide Inv, TxOk, Merge;
      SameOwn(s, t, tx.(next := Select, done := tx.done + [tx.next.job]));
    } else if !ReviewHeld(s, t, key) {
      hide Inv, Merge, AfterReview;
      NewReviewKeepsInv(s, t);
    } else {
      hide Inv, Merge;
    }
  }

  // ---- commit ----

  /** What a transaction has seen stays as it is when another commits. */
  lemma SeenStays<K, V>(db: map<K, V>, a: map<K, V>, own: map<K, V>, key: K)
    requires db.Keys !! a.Keys && a.Keys !! own.Keys && key in db + own
    ensures key in db + a + own && (db + a + own)[key] == (db + own)[key]
  {
  }

  /** A row seen by neither the database nor the transaction is the committer's. */
  lemma FromCommitter<K, V>(db: map<K, V>, a: map<K, V>, own: map<K, V>, key: K)
    requires a.Keys !! own.Keys && key in db + a + own && key !in db + own
    ensures key in a && key in db + a && (db + a + own)[key] == (db + a)[key] == a[key]
  {
  }

  lemma SoundUnion(db: Rows, a: Rows, own: Rows)
    requires Apart(db, a) && Apart(db, own) && Apart(a, own) && LinksOwn(a) && LinksOwn(own)
    requires Sound(db) && Sound(Merge(db, a)) && Sound(Merge(db, own))
    ensures Sound(Merge(Merge(db, a), own))
  {
    LinksUnion(db, a, own);
    LinksApart(db, a, own);
    ReviewsUnion(db, a, own);
    hide LinksExist, LinksDiffer, ReviewsLinked, LinksOwn, Apart;
  }

  lemma LinksUnion(db: Rows, a: Rows, own: Rows)
    requires Apart(db, a) && Apart(db, own) && Apart(a, own)
    requires LinksExist(db.links + a.links, db.people + a.people)
    requires LinksExist(db.links + own.links, db.people + own.people)
    ensures LinksExist(db.links + a.links + own.links, db.people + a.people + own.people)
  {
    var links := db.links + a.links + own.links;
    forall k | k in links
      ensures links[k] in db.people + a.people + own.people && (db.people + a.people + own.people)[links[k]] == k.tenant
    {
      if k in db.links + own.links {
        SeenStays(db.links, a.links, own.links, k);
        SeenStays(db.people, a.people, own.people, links[k]);
      } else {
        FromCommitter(db.links, a.links, own.links, k);
      }
    }
  }

  /** Contributors linked by different transactions were created by different transactions. */
  lemma LinksApart(db: Rows, a: Rows, own: Rows)
    requires Apart(db, a) && Apart(db, own) && Apart(a, own) && LinksOwn(a) && LinksOwn(own)
    requires LinksExist(db.links, db.people) && LinksDiffer(db.links + a.links) && LinksDiffer(db.links + own.links)
    ensures LinksDiffer(db.links + a.links + own.links)
  {
    var links := db.links + a.links + own.links;
    forall j, k | j in links && k in links && links[j] == links[k] ensures j == k {
      if j !in a.links && k !in a.links {
        assert j in db.links + own.links && k in db.links + own.links;
      } else if j !in own.links && k !in own.links {
        assert j in db.links + a.links && k in db.links + a.links;
      }
    }
  }

  lemma ReviewsUnion(db: Rows, a: Rows, own: Rows)
    requires Apart(db, a) && Apart(db, own) && Apart(a, own)
    requires ReviewsLinked(db.reviews + a.reviews, db.links + a.links)
    requires ReviewsLinked(db.reviews + own.reviews, db.links + own.links)
    ensures ReviewsLinked(db.reviews + a.reviews + own.reviews, db.links + a.links + own.links)
  {
    var reviews, links := db.reviews + a.reviews + own.reviews, db.links + a.links + own.links;
    forall k | k in reviews
      ensures Linked(links, LinkKey(k.tenant, reviews[k].login), reviews[k].reviewer)
    {
      if k in db.reviews + own.reviews {
        SeenStays(db.reviews, a.reviews, own.reviews, k);
        SeenStays(db.links, a.links, own.links, LinkKey(k.tenant, reviews[k].login));
      } else {
        FromCommitter(db.reviews, a.reviews, own.reviews, k);
      }
    }
  }

  lemma OtherStaysOk(db: Rows, a: Rows, tx: Tx, limit: Id)
    requires TxOk(db, tx, limit) && Sound(db) && Apart(db, a) && Apart(a, tx.own) && LinksOwn(a)
    requires Sound(Merge(db, a))
    ensures TxOk(Merge(db, a), tx, limit)
  {
    SoundUnion(db, a, tx.own);
    ApartFromMerge(db, a, tx.own);
    StillPrepared(db, a, tx);
    hide Sound, Merge, Apart, Prepared, LinksOwn;
  }

  lemma ApartFromMerge(db: Rows, a: Rows, own: Rows)
    requires Apart(db, own) && Apart(a, own)
    ensures Apart(Merge(db, a), own)
  {
  }

  lemma StillPrepared(db: Rows, a: Rows, tx: Tx)
    requires Apart(db, a) && Apart(a, tx.own) && LinksOwn(a) && Prepared(Merge(db, tx.own), tx)
    ensures Prepared(Merge(Merge(db, a), tx.own), tx)
  {
    if tx.next.Reread? || tx.next.WriteReview? {
      SeenStays(db.links, a.links, tx.own.links, LinkKey(tx.tenant, tx.next.job.login));
    } else if tx.next.CreateLink? {
      var links := db.links + a.links + tx.own.links;
      forall k | k in links ensures links[k] != tx.next.id {
        if k in db.links + tx.own.links {
          SeenStays(db.links, a.links, tx.own.links, k);
        } else {
          FromCommitter(db.links, a.links, tx.own.links, k);
        }
      }
    }
  }

  lemma LogOneMore(marks: set<DeliveryKey>, ids: seq<DeliveryKey>, key: DeliveryKey)
    requires Logged(marks, ids) && key !in marks
    ensures Logged(marks + {key}, ids + [key])
  {
  }

  lemma CommitKeepsInv(s: State, t: TxId)
    requires Inv(s) && t in s.txs && s.txs[t].next.Commit?
    ensures Inv(Issue(s, t))
  {
    var tx, s' := s.txs[t], Issue(s, t);
    assert TxOk(s.db, tx, s.nextId);
    assert s'.log[..|s.log|] == s.log;
    if tx.deliveryId != "" {
      LogOneMore(s.db.marks, Ids(s.log), DeliveryKey(tx.tenant, tx.deliveryId));
    } else {
      assert s.db.marks + {} == s.db.marks;
    }
    assert Drawn(s'.db, s.nextId);
    hide Sound, Drawn, Logged, Merge, LinksOwn, Prepared;
    forall u | u in s'.txs ensures TxOk(s'.db, s.txs[u], s.nextId) {
      OtherStaysOk(s.db, tx.own, s.txs[u], s.nextId);
    }
    hide TxOk, Apart;
  }

  lemma IssueKeepsInv(s: State, t: TxId)
    requires Inv(s) && t in s.txs
    ensures Inv(Issue(s, t))
  {
    hide Inv, Issue;
    match s.txs[t].next
    case Mark => MarkKeepsInv(s, t);
    case Select => SelectKeepsInv(s, t);
    case CreatePerson(_) => CreatePersonKeepsInv(s, t);
    case CreateLink(_, _) => CreateLinkKeepsInv(s, t);
    case Reread(_) => RereadKeepsInv(s, t);
    case WriteReview(_, _) => WriteReviewKeepsInv(s, t);
    case Commit => CommitKeepsInv(s, t);
  }

  lemma BeginKeepsInv(s: State, t: TxId, tx: Tx)
    requires Inv(s) && t !in s.txs && tx.own == NO_ROWS && tx.next.Mark?
    ensures Inv(Put(s, t, tx))
  {
    FreshTxOk(s.db, tx, s.nextId);
    hide TxOk, Sound, Drawn, Logged;
    forall u | u in s.txs ensures Apart(NO_ROWS, s.txs[u].own) && Apart(s.txs[u].own, NO_ROWS) {
    }
    hide Apart;
  }

  lemma FreshTxOk(db: Rows, tx: Tx, limit: Id)
    requires Sound(db) && tx.own == NO_ROWS && tx.next.Mark?
    ensures TxOk(db, tx, limit)
  {
    assert db.people + map[] == db.people && db.links + map[] == db.links && db.reviews + map[] == db.reviews;
    assert Merge(db, NO_ROWS) == db;
    hide Sound;
  }

  lemma StepKeepsInv(s: State, a: Action)
    requires Inv(s)
    ensures Inv(Step(s, a))
  {
    hide Inv, Issue;
    match a
    case Begin(t, tenant, deliveryId, reviews) =>
      if t !in s.txs {
        BeginKeepsInv(s, t, Tx(tenant, deliveryId, [], reviews, Mark, NO_ROWS));
      }
    case Advance(t) =>
      if t in s.txs {
        IssueKeepsInv(s, t);
      }
    case Abort(t) => DropKeepsInv(s, t);
  }

  lemma {:induction false} RunKeepsInv(acts: seq<Action>)
    ensures Inv(Run(acts))
  {
    hide Step;
    if acts == [] {
      assert Logged({}, []);
    } else {
      RunKeepsInv(acts[..|acts| - 1]);
      hide Inv;
      StepKeepsInv(Run(acts[..|acts| - 1]), acts[|acts| - 1]);
    }
  }

  // ---- what racing transactions agree on ----

  /**
    In every reachable state: a link names an existing contributor of its tenant, and no other
    login's; no two open transactions, and no open one and the database, hold a link for the
    same tenant and login; every stored review carries the contributor its login is linked to,
    so all reviews by one login in a tenant carry the same reviewer.
   */
  lemma ContributorAgreement(acts: seq<Action>)
    ensures var s := Run(acts);
            && Sound(s.db)
            && (forall j, k :: j in s.db.reviews && k in s.db.reviews && j.tenant == k.tenant
                               && s.db.reviews[j].login == s.db.reviews[k].login
                               ==> s.db.reviews[j].reviewer == s.db.reviews[k].reviewer)
            && (forall t, key :: t in s.txs && key in s.txs[t].own.links ==> key !in s.db.links)
            && (forall t, u, key :: t in s.txs && u in s.txs && key in s.txs[t].own.links && key in s.txs[u].own.links
                                    ==> t == u)
  {
    RunKeepsInv(acts);
    var s := Run(acts);
    hide Run;
    forall t, key | t in s.txs && key in s.txs[t].own.links ensures key !in s.db.links {
      assert TxOk(s.db, s.txs[t], s.nextId);
    }
  }

  /** Committed links, contributors and reviewers are there for good. */
  lemma CommittedForGood(acts: seq<Action>, a: Action)
    ensures var before, after := Run(acts).db, Step(Run(acts), a).db;
            && (forall k :: k in before.links ==> k in after.links && after.links[k] == before.links[k])
            && (forall i :: i in before.people ==> i in after.people && after.people[i] == before.people[i])
            && (forall k :: k in before.reviews ==> k in after.reviews && after.reviews[k] == before.reviews[k])
  {
    RunKeepsInv(acts);
    var s := Run(acts);
    hide Run, Sound, Logged, Drawn, AllApart;
    if a.Advance? && a.tx in s.txs && s.txs[a.tx].next.Commit? {
      var own := s.txs[a.tx].own;
      assert TxOk(s.db, s.txs[a.tx], s.nextId);
      hide TxOk;
      RowsStay(s.db.links, own.links);
      RowsStay(s.db.people, own.people);
      RowsStay(s.db.reviews, own.reviews);
    } else {
      OnlyCommitsCommit(s, a);
      hide Step, TxOk;
    }
  }

  lemma RowsStay<K, V>(db: map<K, V>, own: map<K, V>)
    requires db.Keys !! own.Keys
    ensures forall k :: k in db ==> k in db + own && (db + own)[k] == db[k]
  {
  }

  lemma OnlyCommitsCommit(s: State, a: Action)
    requires a.Advance? && a.tx in s.txs ==> !s.txs[a.tx].next.Commit?
    ensures Step(s, a).db == s.db
  {
  }

  /** Whoever loses the race for a link finds the winner's when it reads again. */
  lemma LoserFindsWinner(acts: seq<Action>, t: TxId)
    requires var s := Run(acts); t in s.txs && s.txs[t].next.Reread?
    ensures var s, s' := Run(acts), Step(Run(acts), Advance(t));
            && t in s'.txs && s'.txs[t].next.WriteReview?
            && LinkKey(s.txs[t].tenant, s.txs[t].next.job.login) in Seen(s, t).links
            && s'.txs[t].next.id == Seen(s, t).links[LinkKey(s.txs[t].tenant, s.txs[t].next.job.login)]
  {
    RunKeepsInv(acts);
    var s := Run(acts);
    hide Run, Sound, Apart, Logged;
    assert TxOk(s.db, s.txs[t], s.nextId);
  }

  /** However many transactions handle copies of one delivery at once, at most one commits. */
  lemma OneCommitPerDelivery(acts: seq<Action>)
    ensures var ids := Ids(Run(acts).log);
            && (forall i, j :: 0 <= i < j < |ids| ==> ids[i] != ids[j])
            && (forall k :: k in Run(acts).db.marks <==> k in ids)
  {
    RunKeepsInv(acts);
    hide Run, Sound, TxOk;
  }

  // ---- contributors that no link names ----

  ghost predicate IsLinked(links: Links, id: Id) {
    exists k :: k in links && links[k] == id
  }

  /** A transaction that has lost no race sees a link for every contributor but the one it is about
      to link, whose link it has not found. */
  ghost predicate NoOrphan(db: Rows, tx: Tx) {
    var seen := Merge(db, tx.own);
    && !tx.next.Reread?
    && (forall i :: i in seen.people ==> IsLinked(seen.links, i) || (tx.next.CreateLink? && tx.next.id == i))
    && (tx.next.CreatePerson? || tx.next.CreateLink? ==> LinkKey(tx.tenant, tx.next.job.login) !in seen.links)
  }

  ghost predicate Orphanless(s: State) {
    && (forall i :: i in s.db.people ==> IsLinked(s.db.links, i))
    && (forall t, u :: t in s.txs && u in s.txs ==> t == u)
    && (forall t :: t in s.txs ==> NoOrphan(s.db, s.txs[t]))
  }

  /** A transaction begins only when no other is open. */
  ghost predicate Serial(acts: seq<Action>) {
    forall n :: 0 <= n < |acts| && acts[n].Begin? ==> Run(acts[..n]).txs == map[]
  }

  lemma LinkAdded(links: Links, key: PersonKey, id: Id)
    requires key !in links
    ensures forall i :: IsLinked(links, i) ==> IsLinked(links[key := id], i)
    ensures IsLinked(links[key := id], id)
  {
    var links' := links[key := id];
    assert links'[key] == id;
    forall i | IsLinked(links, i) ensures IsLinked(links', i) {
      var k :| k in links && links[k] == i;
      assert links'[k] == i;
    }
  }

  /** A transaction that has written neither contributor nor link. */
  lemma SameRowsNoOrphan(db: Rows, tx: Tx, tx': Tx)
    requires NoOrphan(db, tx) && !tx.next.CreateLink? && !tx'.next.Reread? && !tx'.next.CreateLink?
    requires tx'.tenant == tx.tenant && tx'.own.people == tx.own.people && tx'.own.links == tx.own.links
    requires tx'.next.CreatePerson? ==> LinkKey(tx.tenant, tx'.next.job.login) !in Merge(db, tx.own).links
    ensures NoOrphan(db, tx')
  {
    hide IsLinked;
    assert Merge(db, tx'.own).people == Merge(db, tx.own).people && Merge(db, tx'.own).links == Merge(db, tx.own).links;
  }

  lemma AlonePersonMoves(s: State, t: TxId)
    requires t in s.txs && NoOrphan(s.db, s.txs[t]) && s.txs[t].next.CreatePerson?
    ensures NoOrphan(s.db, Issue(s, t).txs[t])
  {
    var tx, s' := s.txs[t], Issue(s, t);
    hide IsLinked;
    assert Merge(s.db, s'.txs[t].own).people == Merge(s.db, tx.own).people[s.nextId := tx.tenant];
  }

  lemma AloneLinkMoves(s: State, t: TxId)
    requires t in s.txs && NoOrphan(s.db, s.txs[t]) && (forall u :: u in s.txs ==> u == t)
    requires s.txs[t].next.CreateLink?
    ensures NoOrphan(s.db, Issue(s, t).txs[t])
  {
    var tx, s' := s.txs[t], Issue(s, t);
    var key := LinkKey(tx.tenant, tx.next.job.login);
    hide IsLinked;
    assert s' == Put(s, t, AfterLink(tx));
    assert Merge(s.db, s'.txs[t].own).links == Merge(s.db, tx.own).links[key := tx.next.id];
    LinkAdded(Merge(s.db, tx.own).links, key, tx.next.id);
  }

  lemma AloneMoves(s: State, t: TxId)
    requires t in s.txs && NoOrphan(s.db, s.txs[t]) && (forall u :: u in s.txs ==> u == t)
    requires !s.txs[t].next.Commit? && t in Issue(s, t).txs
    ensures NoOrphan(s.db, Issue(s, t).txs[t])
  {
    if s.txs[t].next.CreatePerson? {
      AlonePersonMoves(s, t);
    } else if s.txs[t].next.CreateLink? {
      AloneLinkMoves(s, t);
    } else {
      assert !s.txs[t].next.Reread?;
      hide NoOrphan;
      SameRowsNoOrphan(s.db, s.txs[t], Issue(s, t).txs[t]);
    }
  }

  lemma OnlyThisMoves(s: State, t: TxId)
    requires t in s.txs && !s.txs[t].next.Commit?
    ensures var s' := Issue(s, t);
            s'.db == s.db && (s'.txs == s.txs - {t} || (t in s'.txs && s'.txs == s.txs[t := s'.txs[t]]))
  {
    assert s.txs[t := s.txs[t]] == s.txs;
    hide Merge, AfterReview, AfterLink, LinkHeld, ReviewHeld, MarkHeld;
  }

  lemma AloneKeepsOrphanless(s: State, t: TxId)
    requires Orphanless(s) && t in s.txs
    ensures Orphanless(Issue(s, t))
  {
    var s' := Issue(s, t);
    assert NoOrphan(s.db, s.txs[t]) && forall u :: u in s.txs ==> u == t;
    if s.txs[t].next.Commit? {
      hide IsLinked;
    } else {
      OnlyThisMoves(s, t);
      if t in s'.txs {
        AloneMoves(s, t);
      }
      hide IsLinked, Issue, NoOrphan;
    }
  }

  lemma {:induction false} SerialRunsKeepOrphanless(acts: seq<Action>)
    requires Serial(acts)
    ensures Orphanless(Run(acts))
  {
    hide Issue, IsLinked;
    if acts != [] {
      var before, a := acts[..|acts| - 1], acts[|acts| - 1];
      assert forall n :: 0 <= n < |before| ==> before[n] == acts[n] && before[..n] == acts[..n];
      SerialRunsKeepOrphanless(before);
      var s := Run(before);
      match a
      case Begin(t, tenant, deliveryId, reviews) =>
        assert acts[|before|].Begin? && acts[..|before|] == before;
        assert Merge(s.db, NO_ROWS) == s.db;
      case Advance(t) =>
        if t in s.txs {
          AloneKeepsOrphanless(s, t);
        }
      case Abort(t) =>
    }
  }

  /** Contributors that no link names come from races alone: while transactions run one after the
      other, wherever they abort, every committed contributor is named by a link. */
  lemma OrphansNeedRaces(acts: seq<Action>)
    requires Serial(acts)
    ensures var db := Run(acts).db;
            forall i :: i in db.people ==> exists k :: k in db.links && db.links[k] == i
  {
    SerialRunsKeepOrphanless(acts);
    var db := Run(acts).db;
    hide Run, NoOrphan;
    forall i | i in db.people ensures exists k :: k in db.links && db.links[k] == i {
      assert IsLinked(db.links, i);
    }
  }
}
