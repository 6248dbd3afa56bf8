/**
  services/normalizer in its own form: statements that change tables inside a
  tenant-scoped session, the loops of persist, the transaction around them, and
  the turn of the consumer loop. Each is tied to the functions of Schema, Delivery
  and Offsets, about which the other modules prove what the service promises.
 */
module Normalizer {
  import opened Prelude
  import opened Json
  import opened Connector
  import opened GitHubSource
  import opened Kafka
  import opened Schema
  import opened Views
  import opened Isolation
  import opened Delivery
  import Announcements
  import Offsets
  import Backoff

  /** Why a statement or a transaction returns an error. Only a missing parent is permanent. */
  datatype Fault = StatementFailed | RowSecurity | ParentMissing

  /** The generators only move forward. */
  ghost predicate Drawn(t: Tables, t': Tables) {
    t.nextId <= t'.nextId && t.nextOutboxId <= t'.nextOutboxId
  }

  /**
    One transaction with app.tenant_id set to `scope`. `tables` is what its statements
    see: the committed rows and its own writes. Unless the database is `reliable` any
    statement may fail; one that names another tenant is refused by row-level security.
   */
  class Session {
    const scope: Tenant
    const reliable: bool
    var tables: Tables

    constructor (scope: Tenant, reliable: bool, committed: Tables)
      ensures this.scope == scope && this.reliable == reliable && tables == committed
    {
      this.scope, this.reliable := scope, reliable;
      tables := committed;
    }

    /** Whether the database carries out a statement on rows of this tenant. */
    method Admit(tenant: Tenant) returns (r: Option<Fault>)
      ensures r.None? ==> tenant == scope
      ensures reliable && tenant == scope ==> r.None?
      ensures r != Some(ParentMissing)
    {
      var down: bool := *;
      r := if down && !reliable then Some(StatementFailed) else if tenant != scope then Some(RowSecurity) else None;
    }

    method MarkDelivery(tenant: Tenant, deliveryId: string, eventType: string) returns (r: Result<bool, Fault>)
      modifies this`tables
      ensures Drawn(old(tables), tables) && Confined(scope, old(tables), tables)
      ensures reliable && tenant == scope ==> r.Ok?
      ensures r.Err? ==> r.error != ParentMissing
      ensures r.Ok? ==> r.value == Fresh(old(tables), tenant, deliveryId)
      ensures r.Ok? ==> tables == Schema.MarkDelivery(old(tables), tenant, deliveryId, eventType)
      ensures r.Ok? && r.value && deliveryId != "" ==>
                tables.deliveries == old(tables).deliveries[DeliveryKey(tenant, deliveryId) := eventType]
    {
      ConfinedReflexive(scope, tables);
      if deliveryId == "" {
        return Ok(true);
      }
      var refused := Admit(tenant);
      if refused.Some? {
        return Err(refused.value);
      }
      MarkConfined(tables, tenant, deliveryId, eventType);
      var key := DeliveryKey(tenant, deliveryId);
      if key in tables.deliveries {
        return Ok(false);
      }
      tables := tables.(deliveries := tables.deliveries[key := eventType]);
      return Ok(true);
    }

    method UpsertWorkItem(tenant: Tenant, wi: WorkItem, now: Time) returns (r: Result<Id, Fault>)
      modifies this`tables
      ensures Drawn(old(tables), tables) && Confined(scope, old(tables), tables)
      ensures reliable && tenant == scope ==> r.Ok?
      ensures r.Err? ==> r.error != ParentMissing
      ensures r.Ok? ==> tables == UpsertWork(old(tables), tenant, wi, now)
      ensures r.Ok? && KeyOf(tenant, wi) in old(tables).works ==>
                var was, row := old(tables).works[KeyOf(tenant, wi)], tables.works[KeyOf(tenant, wi)];
                && row.id == was.id && row.updatedAt == now
                && row.cols.number == was.cols.number && row.cols.author == was.cols.author
                && row.cols.createdAt == was.cols.createdAt
                && row.cols.title == wi.title && row.cols.status == wi.status && row.cols.stage == wi.currentStage
                && row.cols.changedFiles == wi.changedFiles && row.cols.additions == wi.additions
                && row.cols.deletions == wi.deletions && row.cols.mergedAt == wi.mergedAt
                    && row.cols.closedAt == wi.closedAt
      ensures r.Ok? ==> KeyOf(tenant, wi) in tables.works && r.value == tables.works[KeyOf(tenant, wi)].id
    {
      ConfinedReflexive(scope, tables);
      var refused := Admit(tenant);
      if refused.Some? {
        return Err(refused.value);
      }
      UpsertWorkConfined(tables, tenant, wi, now);
      var key := KeyOf(tenant, wi);
      if key in tables.works {
        var row := tables.works[key];
        tables := tables.(works := tables.works[key := WorkRow(row.id, Refreshed(row.cols, Columns(wi)), now)]);
      } else {
        tables := tables.(works := tables.works[key := WorkRow(tables.nextId, Columns(wi), now)],
                          nextId := tables.nextId + 1);
      }
      return Ok(tables.works[key].id);
    }

    /** Inserts only if absent; an existing row, whatever it holds, is returned unchanged. */
    method EnsureWorkItem(tenant: Tenant, wi: WorkItem, now: Time) returns (r: Result<Id, Fault>)
      modifies this`tables
      ensures Drawn(old(tables), tables) && Confined(scope, old(tables), tables)
      ensures reliable && tenant == scope ==> r.Ok?
      ensures r.Err? ==> r.error != ParentMissing
      ensures r.Ok? ==> tables == EnsureWork(old(tables), tenant, wi, now)
      ensures r.Ok? ==> KeyOf(tenant, wi) in tables.works && r.value == tables.works[KeyOf(tenant, wi)].id
      ensures KeyOf(tenant, wi) in old(tables).works ==> tables == old(tables)
    {
      ConfinedReflexive(scope, tables);
      var refused := Admit(tenant);
      if refused.Some? {
        return Err(refused.value);
      }
      EnsureWorkConfined(tables, tenant, wi, now);
      var key := KeyOf(tenant, wi);
      if key !in tables.works {
        tables := tables.(works := tables.works[key := WorkRow(tables.nextId, Columns(wi), now)],
                          nextId := tables.nextId + 1);
      }
      return Ok(tables.works[key].id);
    }

    method SelectLink(tenant: Tenant, login: string) returns (r: Result<Option<Id>, Fault>)
      ensures reliable && tenant == scope ==> r.Ok?
      ensures r.Err? ==> r.error != ParentMissing
      ensures r.Ok? ==> tenant == scope
      ensures r.Ok? ==> (r.value.Some? <==> LinkKey(tenant, login) in tables.links)
      ensures r.Ok? && r.value.Some? ==> r.value.value == tables.links[LinkKey(tenant, login)].contributorId
    {
      var refused := Admit(tenant);
      if refused.Some? {
        return Err(refused.value);
      }
      var key := LinkKey(tenant, login);
      r := Ok(if key in tables.links then Some(tables.links[key].contributorId) else None);
    }

    /** The second SELECT, after another session's link has won. */
    method ReadWinner(tenant: Tenant, login: string) returns (r: Result<Id, Fault>)
      ensures reliable && tenant == scope && LinkKey(tenant, login) in tables.links ==> r.Ok?
      ensures r.Err? ==> r.error != ParentMissing
      ensures r.Ok? ==> LinkKey(tenant, login) in tables.links
                        && r.value == tables.links[LinkKey(tenant, login)].contributorId
    {
      var found := SelectLink(tenant, login);
      if found.Err? {
        return Err(found.error);
      }
      r := if found.value.Some? then Ok(found.value.value) else Err(StatementFailed);
    }

    /** Find the login's contributor, or create contributor and link. Alone, a session never
        takes the last branch; module TxRace is about sessions that race for the link. */
    method ResolveContributor(tenant: Tenant, login: string) returns (r: Result<Id, Fault>)
      requires DrawnBelow(tables)
      modifies this`tables
      ensures Drawn(old(tables), tables) && Confined(scope, old(tables), tables)
      ensures reliable && tenant == scope ==> r.Ok?
      ensures r.Err? ==> r.error != ParentMissing
      ensures r.Ok? ==> (tables, r.value) == Schema.ResolveContributor(old(tables), tenant, login)
      ensures r.Ok? ==>
                var key := PersonKey(tenant, Sha256(login));
                && key in tables.links && tables.links[key].contributorId == r.value
                && (if key in old(tables).links then tables == old(tables)
                    else IsNewContributor(tables.contributors, r.value, tenant, login))
    {
      ConfinedReflexive(scope, tables);
      var found := SelectLink(tenant, login);
      if found.Err? {
        return Err(found.error);
      }
      if found.value.Some? {
        return Ok(found.value.value);
      }
      ResolveConfined(tables, tenant, login);
      BotsAreNamed(login);
      hide IsBot;
      var id := tables.nextId;
      var refused := Admit(tenant);
      if refused.Some? {
        return Err(refused.value);
      }
      ContributorAlone(tables, tenant, login);
      tables := InsertContributor(tables, tenant, login);
      refused := Admit(tenant);
      if refused.Some? {
        return Err(refused.value);
      }
      var inserted := LinkKey(tenant, login) !in tables.links;
      tables := InsertLink(tables, tenant, login, id);
      if !inserted {
        r := ReadWinner(tenant, login);
        return;
      }
      return Ok(id);
    }

    method InsertReview(tenant: Tenant, workItemId: Id, reviewerId: Id, rv: Review) returns (r: Result<(), Fault>)
      modifies this`tables
      ensures Drawn(old(tables), tables) && Confined(scope, old(tables), tables)
      ensures reliable && tenant == scope ==> r.Ok?
      ensures r.Err? ==> r.error != ParentMissing
      ensures r.Ok? ==> tables == UpsertReview(old(tables), tenant, workItemId, reviewerId, rv)
      ensures r.Ok? ==> SourceKey(tenant, rv.sourceId) in tables.reviews
      ensures r.Ok? ==>
                var key := SourceKey(tenant, rv.sourceId);
                var row := tables.reviews[key];
                && row.cols.state == rv.state && row.cols.commentCount == rv.commentCount
                && row.cols.submittedAt == rv.submittedAt
                && (if key in old(tables).reviews
                    then var was := old(tables).reviews[key];
                         row.id == was.id && row.workItemId == was.workItemId && row.reviewerId == was.reviewerId
                    else row.workItemId == workItemId && row.reviewerId == reviewerId)
    {
      ConfinedReflexive(scope, tables);
      var refused := Admit(tenant);
      if refused.Some? {
        return Err(refused.value);
      }
      UpsertReviewConfined(tables, tenant, workItemId, reviewerId, rv);
      var key := SourceKey(tenant, rv.sourceId);
      var cols := ReviewCols(rv.state, rv.commentCount, rv.submittedAt);
      if key in tables.reviews {
        tables := tables.(reviews := tables.reviews[key := tables.reviews[key].(cols := cols)]);
      } else {
        tables := tables.(reviews := tables.reviews[key := ReviewRow(tables.nextId, workItemId, reviewerId, cols)],
                          nextId := tables.nextId + 1);
      }
      return Ok(());
    }

    method UpsertCheckRun(tenant: Tenant, cr: CheckRun) returns (r: Result<(), Fault>)
      modifies this`tables
      ensures Drawn(old(tables), tables) && Confined(scope, old(tables), tables)
      ensures reliable && tenant == scope ==> r.Ok?
      ensures r.Err? ==> r.error != ParentMissing
      ensures r.Ok? ==> tables == UpsertCheck(old(tables), tenant, cr)
      ensures r.Ok? ==> SourceKey(tenant, cr.sourceId) in tables.checks
      ensures r.Ok? ==>
                var key := SourceKey(tenant, cr.sourceId);
                var row := tables.checks[key];
                && (row.cols.conclusion.None? <==> cr.conclusion == "")
                && (row.cols.conclusion.Some? ==> row.cols.conclusion.value == cr.conclusion)
                && row.cols.startedAt == cr.startedAt && row.cols.completedAt == cr.completedAt
                && (if key in old(tables).checks
                    then var was := old(tables).checks[key];
                         row.id == was.id && row.cols.headSha == was.cols.headSha && row.cols.name == was.cols.name
                    else row.cols.headSha == cr.headSha && row.cols.name == cr.name)
    {
      ConfinedReflexive(scope, tables);
      var refused := Admit(tenant);
      if refused.Some? {
        return Err(refused.value);
      }
      UpsertCheckConfined(tables, tenant, cr);
      var key := SourceKey(tenant, cr.sourceId);
      var conclusion := if cr.conclusion == "" then None else Some(cr.conclusion);
      if key in tables.checks {
        var was := tables.checks[key];
        var cols := was.cols.(conclusion := conclusion, startedAt := cr.startedAt, completedAt := cr.completedAt);
        tables := tables.(checks := tables.checks[key := was.(cols := cols)]);
      } else {
        var cols := CheckCols(cr.headSha, cr.name, conclusion, cr.startedAt, cr.completedAt);
        tables := tables.(checks := tables.checks[key := CheckRow(tables.nextId, cols)], nextId := tables.nextId + 1);
      }
      return Ok(());
    }

    method EnqueueOutbox(e: Event) returns (r: Result<(), Fault>)
      modifies this`tables
      ensures Drawn(old(tables), tables) && Confined(scope, old(tables), tables)
      ensures reliable && e.tenant == scope ==> r.Ok?
      ensures r.Err? ==> r.error != ParentMissing
      ensures r.Ok? ==> tables == Enqueue(old(tables), e)
    {
      ConfinedReflexive(scope, tables);
      var refused := Admit(e.tenant);
      if refused.Some? {
        return Err(refused.value);
      }
      EnqueueConfined(tables, e);
      tables := Enqueue(tables, e);
      return Ok(());
    }

    // ---- persist: one method a loop ----

    method PersistWorkItems(tenant: Tenant, items: seq<WorkItem>, now: Time) returns (r: Result<NodeIds, Fault>)
      modifies this`tables
      ensures Drawn(old(tables), tables) && Confined(scope, old(tables), tables)
      ensures reliable && tenant == scope ==> r.Ok?
      ensures r.Err? ==> r.error != ParentMissing
      ensures r.Ok? ==> (tables, r.value) == PersistWorks(old(tables), tenant, items, map[], now)
      ensures r.Ok? ==> old(tables).outbox <= tables.outbox
                        && Announcements.Tells(tables.outbox, |old(tables).outbox|, tenant,
                                               Announcements.Announced(items))
    {
      Announcements.LoopTells(tables, tenant, items, map[], now);
      hide Announcements.Tells, Announcements.Announced, UpsertWork, EnsureWork, Confined;
      ConfinedReflexive(scope, tables);
      var idByNode: NodeIds := map[];
      for i := 0 to |items|
        invariant Drawn(old(tables), tables) && Confined(scope, old(tables), tables)
        invariant PersistWorks(tables, tenant, items[i..], idByNode, now)
               == PersistWorks(old(tables), tenant, items, map[], now)
      {
        var wi := items[i];
        ghost var before := tables;
        var id;
        if wi.event.NoEvent? {
          id := EnsureWorkItem(tenant, wi, now);
        } else {
          id := UpsertWorkItem(tenant, wi, now);
        }
        ConfinedTransitive(scope, old(tables), before, tables);
        if id.Err? {
          return Err(id.error);
        }
        ghost var ids := idByNode;
        idByNode := idByNode[wi.nodeId := id.value];
        if !wi.event.NoEvent? {
          ghost var written := tables;
          var staged := EnqueueOutbox(WorkEvent(tenant, wi));
          ConfinedTransitive(scope, old(tables), written, tables);
          if staged.Err? {
            return Err(staged.error);
          }
        }
        assert items[i..][0] == wi && items[i..][1..] == items[i + 1..];
        assert tables == PersistWork(before, tenant, wi, now);
      }
      return Ok(idByNode);
    }

    method PersistReviewRows(tenant: Tenant, reviews: seq<Review>, idByNode: NodeIds) returns (r: Result<(), Fault>)
      requires DrawnBelow(tables)
      modifies this`tables
      ensures Drawn(old(tables), tables) && Confined(scope, old(tables), tables)
      ensures reliable && tenant == scope && r.Err? ==> r.error == ParentMissing
      ensures r.Ok? ==> PersistReviews(old(tables), tenant, reviews, idByNode) == Ok(tables)
      ensures r == Err(ParentMissing) ==> PersistReviews(old(tables), tenant, reviews, idByNode).Err?
    {
      ConfinedReflexive(scope, tables);
      for i := 0 to |reviews|
        invariant Drawn(old(tables), tables) && Confined(scope, old(tables), tables)
        invariant PersistReviews(tables, tenant, reviews[i..], idByNode)
               == PersistReviews(old(tables), tenant, reviews, idByNode)
      {
        var rv := reviews[i];
        assert reviews[i..][0] == rv && reviews[i..][1..] == reviews[i + 1..];
        if rv.prNodeId !in idByNode {
          return Err(ParentMissing);
        }
        if rv.reviewerLogin == "" {
          continue;
        }
        ghost var before := tables;
        Still(scope, old(tables), tables);
        var reviewer := ResolveContributor(tenant, rv.reviewerLogin);
        ConfinedTransitive(scope, old(tables), before, tables);
        if reviewer.Err? {
          return Err(reviewer.error);
        }
        ghost var resolved := tables;
        var written := InsertReview(tenant, idByNode[rv.prNodeId], reviewer.value, rv);
        ConfinedTransitive(scope, old(tables), resolved, tables);
        if written.Err? {
          return Err(written.error);
        }
        ghost var stored := tables;
        var staged := EnqueueOutbox(ReviewEvent(tenant, rv));
        ConfinedTransitive(scope, old(tables), stored, tables);
        if staged.Err? {
          return Err(staged.error);
        }
        assert tables == PersistReview(before, tenant, rv, idByNode[rv.prNodeId]);
      }
      return Ok(());
    }

    method PersistCheckRuns(tenant: Tenant, checks: seq<CheckRun>) returns (r: Result<(), Fault>)
      modifies this`tables
      ensures Drawn(old(tables), tables) && Confined(scope, old(tables), tables)
      ensures reliable && tenant == scope ==> r.Ok?
      ensures r.Err? ==> r.error != ParentMissing
      ensures r.Ok? ==> tables == PersistChecks(old(tables), tenant, checks)
    {
      ConfinedReflexive(scope, tables);
      for i := 0 to |checks|
        invariant Drawn(old(tables), tables) && Confined(scope, old(tables), tables)
        invariant PersistChecks(tables, tenant, checks[i..]) == PersistChecks(old(tables), tenant, checks)
      {
        assert checks[i..][0] == checks[i] && checks[i..][1..] == checks[i + 1..];
        ghost var before := tables;
        var written := UpsertCheckRun(tenant, checks[i]);
        ConfinedTransitive(scope, old(tables), before, tables);
        if written.Err? {
          return Err(written.error);
        }
        ghost var stored := tables;
        var staged := EnqueueOutbox(CheckEvent(tenant, checks[i]));
        ConfinedTransitive(scope, old(tables), stored, tables);
        if staged.Err? {
          return Err(staged.error);
        }
      }
      return Ok(());
    }

    method StageComments(tenant: Tenant, comments: seq<Comment>) returns (r: Result<(), Fault>)
      modifies this`tables
      ensures Drawn(old(tables), tables) && Confined(scope, old(tables), tables)
      ensures reliable && tenant == scope ==> r.Ok?
      ensures r.Err? ==> r.error != ParentMissing
      ensures r.Ok? ==> tables == PersistComments(old(tables), tenant, comments)
    {
      ConfinedReflexive(scope, tables);
      for i := 0 to |comments|
        invariant Drawn(old(tables), tables) && Confined(scope, old(tables), tables)
        invariant PersistComments(tables, tenant, comments[i..]) == PersistComments(old(tables), tenant, comments)
      {
        assert comments[i..][0] == comments[i] && comments[i..][1..] == comments[i + 1..];
        ghost var before := tables;
        var staged := EnqueueOutbox(CommentEvent(tenant, comments[i]));
        ConfinedTransitive(scope, old(tables), before, tables);
        if staged.Err? {
          return Err(staged.error);
        }
      }
      return Ok(());
    }

    /** All entities of one delivery, or an error and whatever was written before it. */
    method Persist(tenant: Tenant, n: Normalized, now: Time) returns (r: Result<(), Fault>)
      requires DrawnBelow(tables)
      modifies this`tables
      ensures Drawn(old(tables), tables) && Confined(scope, old(tables), tables)
      ensures reliable && tenant == scope && r.Err? ==> r.error == ParentMissing
      ensures r.Ok? ==> Schema.Persist(old(tables), tenant, n, now) == Ok(tables)
      ensures r == Err(ParentMissing) ==> Schema.Persist(old(tables), tenant, n, now).Err?
    {
      var ids := PersistWorkItems(tenant, n.workItems, now);
      if ids.Err? {
        return Err(ids.error);
      }
      Still(scope, old(tables), tables);
      ghost var t1 := tables;
      r := PersistReviewRows(tenant, n.reviews, ids.value);
      ConfinedTransitive(scope, old(tables), t1, tables);
      if r.Err? {
        return;
      }
      ghost var t2 := tables;
      r := PersistCheckRuns(tenant, n.checkRuns);
      ConfinedTransitive(scope, old(tables), t2, tables);
      if r.Err? {
        return;
      }
      ghost var t3 := tables;
      r := StageComments(tenant, n.comments);
      ConfinedTransitive(scope, old(tables), t3, tables);
    }

    /** The callback process hands to WithTenant: false for errDuplicate. On a complete result
        it returns no permanent error. */
    method MarkAndPersist(c: Commit, now: Time) returns (r: Result<bool, Fault>)
      requires DrawnBelow(tables) && Complete(c)
      modifies this`tables
      ensures Drawn(old(tables), tables) && Confined(scope, old(tables), tables)
      ensures reliable && c.tenant == scope ==> r.Ok?
      ensures r.Err? ==> r.error != ParentMissing
      ensures r.Ok? ==> r.value == Fresh(old(tables), c.tenant, c.deliveryId)
      ensures r == Ok(true) ==> Effect(old(tables), c, now) == Ok(tables)
    {
      ghost var t := tables;
      PersistNeverFails(t, c, now);
      hide Complete, Confined, DrawnBelow, Schema.Persist, Schema.MarkDelivery, Fresh;
      r := MarkDelivery(c.tenant, c.deliveryId, c.eventType);
      if r.Err? || !r.value {
        return;
      }
      Still(scope, t, tables);
      ghost var marked := tables;
      var stored := Persist(c.tenant, c.content, now);
      ConfinedTransitive(scope, t, marked, tables);
      return if stored.Err? then Err(stored.error) else Ok(true);
    }
  }

  /** A contributor named like the login, a bot exactly if the login ends in [bot]. */
  ghost predicate IsNewContributor(contributors: map<Id, ContributorRow>, id: Id, tenant: Tenant, login: string) {
    && id in contributors && contributors[id].tenant == tenant && contributors[id].person.displayName == login
    && (contributors[id].person.isBot <==> exists name: string :: name + "[bot]" == login)
  }

  lemma BotsAreNamed(login: string)
    ensures IsBot(login) <==> exists name: string :: name + "[bot]" == login
  {
    if IsBot(login) {
      assert login[..|login| - 5] + "[bot]" == login;
    }
    forall name: string | name + "[bot]" == login ensures IsBot(login) {
      assert login[|login| - 5..] == "[bot]";
    }
  }

  lemma ContributorAlone(t: Tables, tenant: Tenant, login: string)
    requires DrawnBelow(t)
    ensures Confined(tenant, t, InsertContributor(t, tenant, login))
  {
    KeepsIdsReflexive(t);
    hide WorkIdsKept, LinksKept, ReviewIdsKept, CheckIdsKept,
         OtherWorks, OtherReviews, OtherChecks, OtherContributors, OtherLinks, OtherDeliveries, OtherOutbox;
    OwnContributor(t.contributors, t.nextId, ContributorRow(tenant, Person(login, IsBot(login))));
  }

  /**
    How the outside world treats one message: whether the tenant lookup answers, whether
    every statement succeeds, whether the commit happens and is reported, and what becomes
    of a write to the dead-letter topic.
   */
  datatype Weather = Weather(lookup: bool, statements: bool, applied: bool, reported: bool, dlq: WriteFate) {
    ghost function CommitFate(): Fate {
      if reported then Commits else CommitsUnreported
    }
  }

  /** The message asks for a delivery that has not been committed. */
  ghost predicate Asks(installs: Installs, t: Tables, msg: Message) {
    var request := Request(installs, msg);
    request.Some? && Fresh(t, request.value.tenant, request.value.deliveryId)
  }

  /** The fate of an attempt is the one the weather makes it: it aborts only because of a failed
      statement or commit, and a failed commit leaves nothing of a fresh delivery. */
  ghost predicate Fits(fate: Fate, w: Weather, asks: bool) {
    && (fate.LookupFails? <==> !w.lookup)
    && (fate.Aborts? ==> !(w.statements && w.applied))
    && (fate.Aborts? || fate.LookupFails? || fate == w.CommitFate())
    && (w.lookup && !w.applied && asks ==> fate.Aborts?)
  }

  /** services/normalizer: its installations, the committed database and the dead-letter topic. */
  class Service {
    var installs: Installs
    var committed: Tables
    var dlq: seq<Message>
    var attempt: nat

    constructor (installs: Installs)
      ensures this.installs == installs && committed == EMPTY && dlq == [] && attempt == 0
    {
      this.installs, committed, dlq, attempt := installs, EMPTY, [], 0;
    }

    /** WithTenant: begin, run the callback, commit if it returned nil, roll back otherwise. */
    method WithTenant(c: Commit, msg: Message, now: Time, w: Weather) returns (reply: Reply, ghost fate: Fate)
      requires DrawnBelow(committed) && Complete(c)
      modifies this`committed
      ensures Fits(fate, w.(lookup := true), Fresh(old(committed), c.tenant, c.deliveryId))
      ensures var o := Transact(old(committed), c, Attempt(msg, now, fate));
              committed == o.tables && reply == o.reply
      ensures !reply.Permanent?
      ensures w.statements && w.applied && w.reported ==> reply.Done?
      ensures Fresh(old(committed), c.tenant, c.deliveryId) && !(w.applied && w.reported) ==> reply.Transient?
    {
      hide Complete, Confined, DrawnBelow, Effect, Transact, Fresh;
      ghost var t := committed;
      TransactOutcomes(t, c, msg, now);
      var tx := new Session(c.tenant, w.statements, committed);
      var r := tx.MarkAndPersist(c, now);
      if r == Ok(false) {
        // errDuplicate: the transaction rolls back, and process returns nil.
        return Done, w.CommitFate();
      }
      if r.Err? || !w.applied {
        fate := Aborts(tx.tables.nextId - t.nextId, tx.tables.nextOutboxId - t.nextOutboxId);
        committed := committed.(nextId := tx.tables.nextId, nextOutboxId := tx.tables.nextOutboxId);
        return Transient, fate;
      }
      committed := tx.tables;
      fate := w.CommitFate();
      reply := if w.reported then Done else Transient;
    }

    /** process. `fate` is what the database made of the attempt; given that, the outcome is
        Delivery.Process's. */
    method Process(msg: Message, now: Time, w: Weather) returns (reply: Reply, ghost fate: Fate)
      requires DrawnBelow(committed)
      modifies this`committed
      ensures Fits(fate, w, Asks(installs, old(committed), msg))
      ensures var o := Delivery.Process(installs, old(committed), Attempt(msg, now, fate));
              committed == o.tables && reply == o.reply
      ensures reply.Permanent? <==> Normalize(Raw(msg)).Err?
      ensures Offsets.AsksNothing(installs, msg) && (w.lookup || Normalize(Raw(msg)).value.skip) ==>
                reply.Done? && committed == old(committed)
      ensures Request(installs, msg).Some? && w.lookup && w.statements && w.applied && w.reported ==> reply.Done?
      ensures Asks(installs, old(committed), msg) && !(w.lookup && w.applied && w.reported) ==> reply.Transient?
    {
      if Normalize(Raw(msg)).Ok? {
        SkippedIffEmpty(Raw(msg));
      }
      RequestsAreComplete(installs, msg);
      hide Normalize, Transact, Complete, DrawnBelow, Fresh;
      fate := if w.lookup then w.CommitFate() else LookupFails;
      var result := Normalize(Raw(msg));
      if result.Err? {
        return Permanent, fate;
      }
      var n := result.value;
      if n.skip || n.Empty() {
        return Done, fate;
      }
      if !w.lookup {
        return Transient, fate;
      }
      if n.installation !in installs {
        return Done, fate;
      }
      reply, fate := WithTenant(
        Commit(installs[n.installation], Raw(msg).deliveryId, Raw(msg).eventType, n), msg, now, w);
    }

    /** deadLetter: true when the write was acknowledged; it may have happened even when not. */
    method DeadLetter(msg: Message, cause: Failure, fate: WriteFate) returns (ok: bool)
      modifies this`dlq
      ensures ok == fate.Acknowledged?
      ensures dlq == if fate.Failed? then old(dlq) else old(dlq) + [Offsets.DeadLetter(msg, cause)]
      ensures !fate.Failed? && Normalize(Raw(msg)) == Err(cause) ==>
                Offsets.IsDeadLetterOf(dlq[|old(dlq)|], msg)
    {
      hide Normalize;
      var headers := CopyHeaders(msg.headers);
      headers := headers[HEADER_DLQ_REASON := Text(Offsets.Reason(cause))];
      if !fate.Failed? {
        dlq := dlq + [Message(msg.key, msg.body, headers)];
      }
      ok := fate.Acknowledged?;
    }

    /** One turn of main's loop after Fetch: whether it goes on to commit the offset, and
        otherwise how long it sleeps before fetching again. */
    method Handle(msg: Message, now: Time, w: Weather) returns (commit: bool, delay: nat, ghost fate: Fate)
      requires DrawnBelow(committed)
      modifies this`committed, this`dlq, this`attempt
      ensures Fits(fate, w, Asks(installs, old(committed), msg))
      ensures var turn := Offsets.Turn(0, now, fate, w.dlq, false);
              var s := Offsets.Consumer(State(old(committed), []), old(dlq), 0);
              var s' := Offsets.Take(installs, [msg], s, turn);
              && committed == s'.core.tables && dlq == s'.dlq
              && commit == Offsets.Acknowledges(installs, [msg], s, turn)
      ensures Normalize(Raw(msg)).Err? ==> commit == w.dlq.Acknowledged?
      ensures Offsets.AsksNothing(installs, msg) && (w.lookup || Normalize(Raw(msg)).value.skip) ==>
                commit && committed == old(committed) && dlq == old(dlq)
      ensures Request(installs, msg).Some? && w.lookup && w.statements && w.applied && w.reported ==> commit
      ensures Asks(installs, old(committed), msg) && !(w.lookup && w.applied && w.reported) ==> !commit
      ensures attempt == if commit then 0 else old(attempt) + 1
      ensures commit || delay == Backoff.Delay(attempt)
    {
      delay := 0;
      var reply;
      reply, fate := Process(msg, now, w);
      hide Fits, Asks;
      match reply {
        case Done =>
          attempt, commit := 0, true;
        case Permanent =>
          PermanentLeavesNoRow(installs, old(committed), Attempt(msg, now, fate));
          commit := DeadLetter(msg, Normalize(Raw(msg)).error, w.dlq);
          attempt := if commit then 0 else attempt + 1;
        case Transient =>
          attempt, commit := attempt + 1, false;
      }
      if !commit {
        delay := Backoff.Backoff(attempt);
      }
    }
  }

  lemma TransactOutcomes(t: Tables, c: Commit, msg: Message, now: Time)
    requires Complete(c)
    ensures forall i: nat, r: nat ::
              Transact(t, c, Attempt(msg, now, Aborts(i, r))) == Outcome(Rollback(t, i, r), Transient, None)
    ensures !Fresh(t, c.tenant, c.deliveryId) ==>
              && Transact(t, c, Attempt(msg, now, Commits)) == Outcome(t, Done, None)
              && Transact(t, c, Attempt(msg, now, CommitsUnreported)) == Outcome(t, Done, None)
    ensures Effect(t, c, now)
         == Schema.Persist(Schema.MarkDelivery(t, c.tenant, c.deliveryId, c.eventType), c.tenant, c.content, now)
    ensures Effect(t, c, now).Ok?
    ensures Fresh(t, c.tenant, c.deliveryId) ==>
              && Transact(t, c, Attempt(msg, now, Commits)) == Outcome(Effect(t, c, now).value, Done, Some(c))
              && Transact(t, c, Attempt(msg, now, CommitsUnreported))
                   == Outcome(Effect(t, c, now).value, Transient, Some(c))
  {
    PersistNeverFails(t, c, now);
    hide Schema.Persist, Schema.MarkDelivery, Complete, Fresh;
  }
}
