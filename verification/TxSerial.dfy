/**
  Racing transactions are serializable in commit order: however their statements
  interleave, the committed links and reviews are what running each committed
  transaction alone, one after the other in commit order, would leave.
 */
module TxSerial {
  import opened Prelude
  import opened Schema
  import opened TxRace

  /** Rows without generated ids: which logins are linked, and whose each review is. */
  datatype View = View(linked: set<PersonKey>, reviews: map<SourceKey, string>)

  const EMPTY_VIEW := View({}, map[])

  /** One review, handled with nobody else around: first links and first reviewers stay. */
  function ApplyJob(v: View, tenant: Tenant, job: Job): View {
    var key := SourceKey(tenant, job.sourceId);
    View(v.linked + {LinkKey(tenant, job.login)},
         if key in v.reviews then v.reviews else v.reviews[key := job.login])
  }

  function ApplyJobs(v: View, tenant: Tenant, jobs: seq<Job>): View {
    if jobs == [] then v else ApplyJob(ApplyJobs(v, tenant, jobs[..|jobs| - 1]), tenant, jobs[|jobs| - 1])
  }

  function Serial(log: seq<Committed>): View {
    if log == [] then EMPTY_VIEW
    else
      var last := log[|log| - 1];
      ApplyJobs(Serial(log[..|log| - 1]), last.tenant, last.reviews)
  }

  function Logins(reviews: Reviews): map<SourceKey, string> {
    map k | k in reviews :: reviews[k].login
  }

  function Of(rows: Rows): View {
    View(rows.links.Keys, Logins(rows.reviews))
  }

  /** Applying jobs to a view only adds what they alone amount to and the view lacks. */
  lemma {:induction false} JobsAlone(v: View, tenant: Tenant, jobs: seq<Job>)
    ensures var alone := ApplyJobs(EMPTY_VIEW, tenant, jobs);
            ApplyJobs(v, tenant, jobs) == View(v.linked + alone.linked, alone.reviews + v.reviews)
  {
    if jobs == [] {
      assert map[] + v.reviews == v.reviews && v.linked + {} == v.linked;
    } else {
      var job := jobs[|jobs| - 1];
      JobsAlone(v, tenant, jobs[..|jobs| - 1]);
      var alone := ApplyJobs(EMPTY_VIEW, tenant, jobs[..|jobs| - 1]);
      var key := SourceKey(tenant, job.sourceId);
      assert alone.reviews[key := job.login] + v.reviews
          == if key in v.reviews then alone.reviews + v.reviews else (alone.reviews + v.reviews)[key := job.login];
    }
  }

  // ---- what an open transaction has achieved ----

  function Current(next: Next): seq<Job> {
    match next
    case CreatePerson(job) => [job]
    case CreateLink(job, _) => [job]
    case Reread(job) => [job]
    case WriteReview(job, _) => [job]
    case _ => []
  }

  /** The reviews a transaction was begun with. */
  function Plan(tx: Tx): seq<Job> {
    tx.done + Current(tx.next) + tx.todo
  }

  ghost predicate ReviewsDone(db: Reviews, own: Reviews, alone: map<SourceKey, string>) {
    && (forall k :: k in own ==> k in alone && own[k].login == alone[k])
    && (forall k :: k in alone ==> k in db || k in own)
  }

  ghost predicate LinksDone(db: Links, own: Links, alone: set<PersonKey>, current: set<PersonKey>) {
    && (forall k :: k in own ==> k in alone || k in current)
    && (forall k :: k in alone ==> k in db || k in own)
  }

  function CurrentKey(tx: Tx): set<PersonKey> {
    if Current(tx.next) == [] then {} else {LinkKey(tx.tenant, Current(tx.next)[0].login)}
  }

  /** The rows of the database and the transaction amount to its finished reviews. */
  ghost predicate Achieved(db: Rows, tx: Tx) {
    var alone := ApplyJobs(EMPTY_VIEW, tx.tenant, tx.done);
    && ReviewsDone(db.reviews, tx.own.reviews, alone.reviews)
    && LinksDone(db.links, tx.own.links, alone.linked, CurrentKey(tx))
    && (tx.next.Commit? ==> tx.todo == [])
    && (tx.next.Mark? ==> tx.done == [])
  }

  ghost predicate Begun(acts: seq<Action>, tenant: Tenant, deliveryId: string, reviews: seq<Job>) {
    exists i :: 0 <= i < |acts| && acts[i].Begin? && acts[i].tenant == tenant && acts[i].deliveryId == deliveryId
                && acts[i].reviews == reviews
  }

  ghost predicate TxsBegun(acts: seq<Action>, txs: map<TxId, Tx>) {
    forall t :: t in txs ==> Begun(acts, txs[t].tenant, txs[t].deliveryId, Plan(txs[t]))
  }

  ghost predicate LogBegun(acts: seq<Action>, log: seq<Committed>) {
    forall i :: 0 <= i < |log| ==> Begun(acts, log[i].tenant, log[i].deliveryId, log[i].reviews)
  }

  ghost predicate SerialInv(acts: seq<Action>, s: State) {
    && TxRace.Inv(s)
    && Of(s.db) == Serial(s.log)
    && (forall t :: t in s.txs ==> Achieved(s.db, s.txs[t]))
    && TxsBegun(acts, s.txs) && LogBegun(acts, s.log)
  }

  lemma JobDone(v: View, tenant: Tenant, done: seq<Job>, job: Job)
    ensures ApplyJobs(v, tenant, done + [job]) == ApplyJob(ApplyJobs(v, tenant, done), tenant, job)
  {
    assert (done + [job])[..|done|] == done;
  }

  lemma ReviewsDoneToo(db: Reviews, own: Reviews, alone: map<SourceKey, string>, key: SourceKey, row: Stored)
    requires ReviewsDone(db, own, alone)
    ensures ReviewsDone(db, if key in db + own then own else own[key := row],
                        if key in alone then alone else alone[key := row.login])
  {
  }

  lemma LinksDoneToo(db: Links, own: Links, alone: set<PersonKey>, key: PersonKey)
    requires LinksDone(db, own, alone, {key}) && key in db + own
    ensures LinksDone(db, own, alone + {key}, {})
  {
  }

  /** A review row written, or found already there. */
  lemma ReviewAchieved(db: Rows, tx: Tx, own': Rows)
    requires Achieved(db, tx) && tx.next.WriteReview? && own'.links == tx.own.links
    requires LinkKey(tx.tenant, tx.next.job.login) in Merge(db, tx.own).links
    requires var key := SourceKey(tx.tenant, tx.next.job.sourceId);
             if key in Merge(db, tx.own).reviews then own'.reviews == tx.own.reviews
             else own'.reviews == tx.own.reviews[key := Stored(tx.next.job.login, tx.next.id)]
    ensures Achieved(db, tx.(next := Select, done := tx.done + [tx.next.job], own := own'))
  {
    var job := tx.next.job;
    var alone := ApplyJobs(EMPTY_VIEW, tx.tenant, tx.done);
    JobDone(EMPTY_VIEW, tx.tenant, tx.done, job);
    ReviewsDoneToo(db.reviews, tx.own.reviews, alone.reviews, SourceKey(tx.tenant, job.sourceId), Stored(job.login,
        tx.next.id));
    LinksDoneToo(db.links, tx.own.links, alone.linked, LinkKey(tx.tenant, job.login));
    hide ApplyJobs, ReviewsDone, LinksDone;
  }

  lemma LinkAchieved(db: Rows, tx: Tx)
    requires Achieved(db, tx) && tx.next.CreateLink?
    ensures Achieved(db, AfterLink(tx))
  {
    hide ApplyJobs;
  }

  /** A statement that writes neither links nor reviews. */
  lemma SameAchieved(db: Rows, tx: Tx, tx': Tx)
    requires Achieved(db, tx) && tx'.done == tx.done && tx'.tenant == tx.tenant
    requires tx'.own.links == tx.own.links && tx'.own.reviews == tx.own.reviews
    requires CurrentKey(tx) <= CurrentKey(tx') && !tx'.next.Mark? && (tx'.next.Commit? ==> tx'.todo == [])
    ensures Achieved(db, tx')
  {
    hide ApplyJobs;
  }

  ghost predicate Continues(db: Rows, tx: Tx, tx': Tx) {
    Achieved(db, tx') && Plan(tx') == Plan(tx) && tx'.tenant == tx.tenant && tx'.deliveryId == tx.deliveryId
  }

  lemma SelectContinues(s: State, t: TxId)
    requires t in s.txs && s.txs[t].next.Select? && Achieved(s.db, s.txs[t])
    ensures t in Issue(s, t).txs && Continues(s.db, s.txs[t], Issue(s, t).txs[t])
  {
    var tx, tx' := s.txs[t], Issue(s, t).txs[t];
    SameAchieved(s.db, tx, tx');
    hide Achieved, Merge;
    if tx.todo != [] {
      assert tx.todo == [tx.todo[0]] + tx.todo[1..];
    }
  }

  lemma ReviewContinues(db: Rows, tx: Tx, own': Rows)
    requires Achieved(db, tx) && tx.next.WriteReview? && own'.links == tx.own.links
    requires LinkKey(tx.tenant, tx.next.job.login) in Merge(db, tx.own).links
    requires var key := SourceKey(tx.tenant, tx.next.job.sourceId);
             if key in Merge(db, tx.own).reviews then own'.reviews == tx.own.reviews
             else own'.reviews == tx.own.reviews[key := Stored(tx.next.job.login, tx.next.id)]
    ensures Continues(db, tx, tx.(next := Select, done := tx.done + [tx.next.job], own := own'))
  {
    ReviewAchieved(db, tx, own');
    hide Achieved, Merge;
  }

  lemma WriteContinues(s: State, t: TxId)
    requires TxRace.Inv(s) && t in s.txs && s.txs[t].next.WriteReview? && Achieved(s.db, s.txs[t])
    ensures t in Issue(s, t).txs && (Issue(s, t) == s || Continues(s.db, s.txs[t], Issue(s, t).txs[t]))
  {
    var tx := s.txs[t];
    LinkIsSeen(s, t);
    hide Achieved, Inv, Continues;
    if SourceKey(tx.tenant, tx.next.job.sourceId) in Seen(s, t).reviews {
      ReviewContinues(s.db, tx, tx.own);
      hide Merge;
    } else {
      ReviewContinues(s.db, tx, AfterReview(tx).own);
      hide Merge, ReviewHeld;
    }
  }

  lemma LinkIsSeen(s: State, t: TxId)
    requires TxRace.Inv(s) && t in s.txs && s.txs[t].next.WriteReview?
    ensures LinkKey(s.txs[t].tenant, s.txs[t].next.job.login) in Merge(s.db, s.txs[t].own).links
  {
    assert TxOk(s.db, s.txs[t], s.nextId);
    hide Apart, Sound;
  }

  lemma LinkContinues(s: State, t: TxId)
    requires t in s.txs && s.txs[t].next.CreateLink? && Achieved(s.db, s.txs[t])
    ensures t in Issue(s, t).txs && Continues(s.db, s.txs[t], Issue(s, t).txs[t])
  {
    var tx, tx' := s.txs[t], Issue(s, t).txs[t];
    hide Achieved, Merge, LinkHeld;
    if tx'.own == tx.own {
      SameAchieved(s.db, tx, tx');
    } else {
      LinkAchieved(s.db, tx);
    }
  }

  lemma OtherContinues(s: State, t: TxId)
    requires t in s.txs && Achieved(s.db, s.txs[t])
    requires var next := s.txs[t].next; next.Mark? || next.CreatePerson? || next.Reread?
    ensures t in Issue(s, t).txs ==> Issue(s, t) == s || Continues(s.db, s.txs[t], Issue(s, t).txs[t])
  {
    hide Achieved, Merge, MarkHeld;
    if t in Issue(s, t).txs && Issue(s, t) != s {
      SameAchieved(s.db, s.txs[t], Issue(s, t).txs[t]);
    }
  }

  /** Every statement but the commit keeps what the transaction has achieved and means to do. */
  lemma IssueContinues(s: State, t: TxId)
    requires TxRace.Inv(s) && t in s.txs && Achieved(s.db, s.txs[t]) && !s.txs[t].next.Commit?
    ensures t in Issue(s, t).txs ==> Continues(s.db, s.txs[t], Issue(s, t).txs[t])
  {
    hide Inv, Achieved, Issue;
    match s.txs[t].next
    case Select => SelectContinues(s, t);
    case CreateLink(_, _) => LinkContinues(s, t);
    case WriteReview(_, _) => WriteContinues(s, t);
    case _ => OtherContinues(s, t);
  }

  // ---- commit ----

  lemma CommittedLogins(db: Reviews, own: Reviews, alone: map<SourceKey, string>)
    requires ReviewsDone(db, own, alone) && db.Keys !! own.Keys
    ensures Logins(db + own) == alone + Logins(db)
  {
  }

  lemma CommittedLinks(db: Links, own: Links, alone: set<PersonKey>)
    requires LinksDone(db, own, alone, {})
    ensures (db + own).Keys == db.Keys + alone
  {
  }

  /** What a transaction commits is what its reviews amount to on the rows committed before it. */
  lemma CommitIsSerial(db: Rows, tx: Tx)
    requires Achieved(db, tx) && tx.next.Commit? && Apart(db, tx.own)
    ensures Of(Merge(db, tx.own)) == ApplyJobs(Of(db), tx.tenant, tx.done) && Plan(tx) == tx.done
  {
    var alone := ApplyJobs(EMPTY_VIEW, tx.tenant, tx.done);
    JobsAlone(Of(db), tx.tenant, tx.done);
    CommittedLogins(db.reviews, tx.own.reviews, alone.reviews);
    CommittedLinks(db.links, tx.own.links, alone.linked);
    hide ApplyJobs, ReviewsDone, LinksDone, Logins;
  }

  lemma StillAchieved(db: Rows, a: Rows, tx: Tx)
    requires Achieved(db, tx)
    ensures Achieved(Merge(db, a), tx)
  {
    hide ApplyJobs;
  }

  lemma BegunStays(acts: seq<Action>, a: Action, tenant: Tenant, deliveryId: string, reviews: seq<Job>)
    requires Begun(acts, tenant, deliveryId, reviews)
    ensures Begun(acts + [a], tenant, deliveryId, reviews)
  {
    var i :| 0 <= i < |acts| && acts[i].Begin? && acts[i].tenant == tenant && acts[i].deliveryId == deliveryId
             && acts[i].reviews == reviews;
    assert (acts + [a])[i] == acts[i];
  }

  lemma AllBegunStay(acts: seq<Action>, a: Action, s: State)
    requires TxsBegun(acts, s.txs) && LogBegun(acts, s.log)
    ensures TxsBegun(acts + [a], s.txs) && LogBegun(acts + [a], s.log)
  {
    hide Plan, Begun;
    forall t | t in s.txs ensures Begun(acts + [a], s.txs[t].tenant, s.txs[t].deliveryId, Plan(s.txs[t])) {
      BegunStays(acts, a, s.txs[t].tenant, s.txs[t].deliveryId, Plan(s.txs[t]));
    }
    forall i | 0 <= i < |s.log| ensures Begun(acts + [a], s.log[i].tenant, s.log[i].deliveryId, s.log[i].reviews) {
      BegunStays(acts, a, s.log[i].tenant, s.log[i].deliveryId, s.log[i].reviews);
    }
  }

  lemma CommitKeepsSerial(acts: seq<Action>, s: State, t: TxId)
    requires SerialInv(acts, s) && t in s.txs && s.txs[t].next.Commit?
    ensures var s' := Issue(s, t);
            && Of(s'.db) == Serial(s'.log)
            && (forall u :: u in s'.txs ==> Achieved(s'.db, s'.txs[u]))
            && TxsBegun(acts, s'.txs) && LogBegun(acts, s'.log)
  {
    var tx, s' := s.txs[t], Issue(s, t);
    assert TxOk(s.db, tx, s.nextId);
    hide TxRace.Inv, TxOk, Apart;
    CommitIsSerial(s.db, tx);
    assert s'.log[..|s.log|] == s.log;
    forall u | u in s'.txs ensures Achieved(s'.db, s'.txs[u]) {
      StillAchieved(s.db, tx.own, s.txs[u]);
    }
    hide Achieved, Merge, Begun, Of, ApplyJobs, Plan;
  }

  lemma IssueKeepsSerial(acts: seq<Action>, s: State, t: TxId)
    requires SerialInv(acts, s) && t in s.txs && !s.txs[t].next.Commit?
    ensures var s' := Issue(s, t);
            && Of(s'.db) == Serial(s'.log)
            && (forall u :: u in s'.txs ==> Achieved(s'.db, s'.txs[u]))
            && TxsBegun(acts, s'.txs) && LogBegun(acts, s'.log)
  {
    IssueContinues(s, t);
    OnlyOneMoves(s, t);
    hide TxRace.Inv, Issue, Of, Serial, LogBegun;
    OneMoved(acts, s.db, s.txs, Issue(s, t).txs, t);
    hide TxsBegun, Achieved, Continues;
  }

  lemma OneMoved(acts: seq<Action>, db: Rows, txs: map<TxId, Tx>, txs': map<TxId, Tx>, t: TxId)
    requires t in txs && TxsBegun(acts, txs) && forall u :: u in txs ==> Achieved(db, txs[u])
    requires t in txs' ==> Continues(db, txs[t], txs'[t])
    requires forall u :: u in txs' ==> u in txs && (u != t ==> txs'[u] == txs[u])
    ensures TxsBegun(acts, txs') && forall u :: u in txs' ==> Achieved(db, txs'[u])
  {
    hide Achieved, Plan, Begun;
  }

  lemma OnlyOneMoves(s: State, t: TxId)
    requires t in s.txs && !s.txs[t].next.Commit?
    ensures Issue(s, t).db == s.db && Issue(s, t).log == s.log
    ensures forall u :: u in Issue(s, t).txs ==> u in s.txs && (u != t ==> Issue(s, t).txs[u] == s.txs[u])
  {
    hide Merge, MarkHeld, LinkHeld, ReviewHeld;
  }

  lemma BeginKeepsSerial(acts: seq<Action>, s: State, a: Action)
    requires SerialInv(acts, s) && a.Begin? && a.tx !in s.txs
    ensures var s' := Step(s, a);
            && Of(s'.db) == Serial(s'.log)
            && (forall u :: u in s'.txs ==> Achieved(s'.db, s'.txs[u]))
            && TxsBegun(acts + [a], s'.txs) && LogBegun(acts + [a], s'.log)
  {
    AllBegunStay(acts, a, s);
    var tx := Tx(a.tenant, a.deliveryId, [], a.reviews, Mark, NO_ROWS);
    JustBegun(acts, s.db, a, tx);
    hide TxRace.Inv, Of, Serial, Achieved, Plan, Begun;
  }

  lemma JustBegun(acts: seq<Action>, db: Rows, a: Action, tx: Tx)
    requires a.Begin? && tx == Tx(a.tenant, a.deliveryId, [], a.reviews, Mark, NO_ROWS)
    ensures Achieved(db, tx) && Begun(acts + [a], tx.tenant, tx.deliveryId, Plan(tx))
  {
    assert Plan(tx) == a.reviews;
    assert (acts + [a])[|acts|] == a;
  }

  lemma StepKeepsSerial(acts: seq<Action>, s: State, a: Action)
    requires SerialInv(acts, s)
    ensures SerialInv(acts + [a], Step(s, a))
  {
    TxRace.StepKeepsInv(s, a);
    if a.Begin? && a.tx !in s.txs {
      BeginKeepsSerial(acts, s, a);
    } else if a.Advance? && a.tx in s.txs {
      if s.txs[a.tx].next.Commit? {
        CommitKeepsSerial(acts, s, a.tx);
      } else {
        IssueKeepsSerial(acts, s, a.tx);
      }
      AllBegunStay(acts, a, Issue(s, a.tx));
    } else {
      AllBegunStay(acts, a, s);
    }
    hide TxRace.Inv, Issue, Achieved, Of, Serial, Plan, Begun;
  }

  lemma InitSerial()
    ensures SerialInv([], INIT)
  {
    TxRace.RunKeepsInv([]);
    assert Of(NO_ROWS) == EMPTY_VIEW;
    hide Sound, Logged, AllApart;
  }

  lemma {:induction false} RunKeepsSerial(acts: seq<Action>)
    ensures SerialInv(acts, Run(acts))
  {
    hide SerialInv, Step;
    if acts == [] {
      InitSerial();
    } else {
      var before, a := acts[..|acts| - 1], acts[|acts| - 1];
      RunKeepsSerial(before);
      StepKeepsSerial(before, Run(before), a);
      assert before + [a] == acts;
    }
  }

  /** The committed rows are those of a serial execution in commit order, and every committed
      transaction has written all the reviews it was begun with. */
  lemma RacesAreSerializable(acts: seq<Action>)
    ensures var s := Run(acts);
            && Of(s.db) == Serial(s.log)
            && (forall i :: 0 <= i < |s.log| ==> Begun(acts, s.log[i].tenant, s.log[i].deliveryId, s.log[i].reviews))
  {
    RunKeepsSerial(acts);
    hide Run, TxRace.Inv, Achieved, Of, Serial, Begun;
  }
}
