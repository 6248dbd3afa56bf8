/**
  The whole ingestion spine: the connector emits webhooks, deliveries commit rows to
  the outbox, relays carry them to the canonical topic. Attempts, crashes, redeliveries, failed writes and
  failed stamps interleave in any order.
 */
module Spine {
  import opened Prelude
  import Connector
  import opened Schema
  import opened Views
  import ConnectorService
  import Delivery
  import Enrichment
  import GitHubSource
  import Kafka
  import RelayOrder
  import R = RelayProtocol

  datatype State = State(core: Delivery.State, relay: R.Outbox)

  /**
    A delivery makes its rows visible under the outbox ids its transaction drew: ascending, and
    nobody else's, but in any order with those of others, since transactions that race commit in
    another order than they draw. A relay's step commits no rows.
   */
  datatype Action = Deliver(attempt: Delivery.Attempt, ids: seq<R.RowId>) | Relay(step: R.Action)

  /** The ids are as many as the rows the attempt committed, ascending and new. */
  predicate Fits(s: State, core': Delivery.State, ids: seq<R.RowId>) {
    && |s.relay.committed| + |ids| == |core'.tables.outbox|
    && R.Ascending(ids) && forall x :: x in ids ==> x !in s.relay.committed
  }

  /** What the relay machine sees of an action. */
  function RelayStep(installs: Delivery.Installs, s: State, a: Action): R.Action {
    match a
    case Deliver(attempt, ids) =>
      R.CommitRows(if Fits(s, Delivery.Step(installs, s.core, attempt), ids) then ids else [])
    case Relay(step) => if step.CommitRows? then R.CommitRows([]) else step
  }

  /** Whether an action is an attempt; one with ids no transaction could have drawn is none. */
  predicate Delivers(installs: Delivery.Installs, s: State, a: Action) {
    a.Deliver? && Fits(s, Delivery.Step(installs, s.core, a.attempt), a.ids)
  }

  function Step(installs: Delivery.Installs, s: State, a: Action): State
    requires R.PassesInRange(s.relay)
  {
    State(if Delivers(installs, s, a) then Delivery.Step(installs, s.core, a.attempt) else s.core,
          R.Step(s.relay, RelayStep(installs, s, a)))
  }

  function Run(installs: Delivery.Installs, run: seq<Action>): (s: State)
    ensures R.PassesInRange(s.relay)
  {
    if run == [] then State(Delivery.INIT, R.EMPTY)
    else
      var before := Run(installs, run[..|run| - 1]);
      R.StepKeepsRange(before.relay, RelayStep(installs, before, run[|run| - 1]));
      Step(installs, before, run[|run| - 1])
  }

  /** The attempts of a run, and what the relay machine sees of it. */
  function Attempts(installs: Delivery.Installs, run: seq<Action>): seq<Delivery.Attempt> {
    if run == [] then []
    else
      var before, last := run[..|run| - 1], run[|run| - 1];
      Attempts(installs, before) + if Delivers(installs, Run(installs, before), last) then [last.attempt] else []
  }

  function Trace(installs: Delivery.Installs, run: seq<Action>): seq<R.Action> {
    if run == [] then []
    else Trace(installs, run[..|run| - 1]) + [RelayStep(installs, Run(installs, run[..|run| - 1]), run[|run| - 1])]
  }

  lemma {:induction false} RunDecomposes(installs: Delivery.Installs, run: seq<Action>)
    ensures Run(installs, run).core == Delivery.Run(installs, Attempts(installs, run))
    ensures Run(installs, run).relay == R.Run(Trace(installs, run))
  {
    hide Delivery.Step, R.Step, RelayStep, Fits;
    if run != [] {
      var before, last := run[..|run| - 1], run[|run| - 1];
      RunDecomposes(installs, before);
      var trace, attempts := Trace(installs, before), Attempts(installs, before);
      assert Trace(installs, run)[..|trace|] == trace;
      if Delivers(installs, Run(installs, before), last) {
        assert Attempts(installs, run)[..|attempts|] == attempts;
      } else {
        assert Attempts(installs, run) == attempts;
      }
    }
  }

  // ---- the outbox only grows ----

  lemma EnqueueGrows(t: Tables, t': Tables, e: Event)
    requires t'.outbox == t.outbox
    ensures t.outbox <= Enqueue(t', e).outbox
  {
  }

  lemma WorkKeepsOutbox(t: Tables, tenant: Tenant, wi: Connector.WorkItem, now: Time)
    ensures UpsertWork(t, tenant, wi, now).outbox == t.outbox && EnsureWork(t, tenant, wi, now).outbox == t.outbox
  {
  }

  lemma WorkGrows(t: Tables, tenant: Tenant, wi: Connector.WorkItem, now: Time)
    ensures t.outbox <= PersistWork(t, tenant, wi, now).outbox
  {
    WorkKeepsOutbox(t, tenant, wi, now);
    hide UpsertWork, EnsureWork, Enqueue;
    EnqueueGrows(t, UpsertWork(t, tenant, wi, now), WorkEvent(tenant, wi));
  }

  lemma ResolveKeepsOutbox(t: Tables, tenant: Tenant, login: string)
    ensures ResolveContributor(t, tenant, login).0.outbox == t.outbox
  {
  }

  lemma ReviewKeepsOutbox(t: Tables, tenant: Tenant, workItemId: Id, reviewerId: Id, rv: Connector.Review)
    ensures UpsertReview(t, tenant, workItemId, reviewerId, rv).outbox == t.outbox
  {
  }

  lemma ReviewGrows(t: Tables, tenant: Tenant, rv: Connector.Review, workItemId: Id)
    ensures t.outbox <= PersistReview(t, tenant, rv, workItemId).outbox
  {
    var resolved := ResolveContributor(t, tenant, rv.reviewerLogin);
    ResolveKeepsOutbox(t, tenant, rv.reviewerLogin);
    ReviewKeepsOutbox(resolved.0, tenant, workItemId, resolved.1, rv);
    hide ResolveContributor, UpsertReview, Enqueue;
    EnqueueGrows(t, UpsertReview(resolved.0, tenant, workItemId, resolved.1, rv), ReviewEvent(tenant, rv));
  }

  lemma {:induction false} WorksGrow(t: Tables, tenant: Tenant, items: seq<Connector.WorkItem>, ids: NodeIds, now: Time)
    ensures t.outbox <= PersistWorks(t, tenant, items, ids, now).0.outbox
    decreases |items|
  {
    hide PersistWork;
    if items != [] {
      var t' := PersistWork(t, tenant, items[0], now);
      WorkGrows(t, tenant, items[0], now);
      WorksGrow(t', tenant, items[1..], ids[items[0].nodeId := t'.works[KeyOf(tenant, items[0])].id], now);
    }
  }

  lemma {:induction false} ReviewsGrow(t: Tables, tenant: Tenant, reviews: seq<Connector.Review>, ids: NodeIds)
    requires PersistReviews(t, tenant, reviews, ids).Ok?
    ensures t.outbox <= PersistReviews(t, tenant, reviews, ids).value.outbox
    decreases |reviews|
  {
    hide PersistReview;
    if reviews != [] {
      var t' := PersistReview(t, tenant, reviews[0], ids[reviews[0].prNodeId]);
      ReviewGrows(t, tenant, reviews[0], ids[reviews[0].prNodeId]);
      ReviewsGrow(t', tenant, reviews[1..], ids);
    }
  }

  lemma {:induction false} ChecksGrow(t: Tables, tenant: Tenant, checks: seq<Connector.CheckRun>)
    ensures t.outbox <= PersistChecks(t, tenant, checks).outbox
    decreases |checks|
  {
    if checks != [] {
      ChecksGrow(Enqueue(UpsertCheck(t, tenant, checks[0]), CheckEvent(tenant, checks[0])), tenant, checks[1..]);
    }
  }

  lemma {:induction false} CommentsGrow(t: Tables, tenant: Tenant, comments: seq<Connector.Comment>)
    ensures t.outbox <= PersistComments(t, tenant, comments).outbox
    decreases |comments|
  {
    if comments != [] {
      CommentsGrow(Enqueue(t, CommentEvent(tenant, comments[0])), tenant, comments[1..]);
    }
  }

  lemma EffectGrows(t: Tables, c: Commit, now: Time)
    requires Effect(t, c, now).Ok?
    ensures t.outbox <= Effect(t, c, now).value.outbox
  {
    hide PersistWorks, PersistReviews, PersistChecks, PersistComments;
    var t1 := MarkDelivery(t, c.tenant, c.deliveryId, c.eventType);
    WorksGrow(t1, c.tenant, c.content.workItems, map[], now);
    var works := PersistWorks(t1, c.tenant, c.content.workItems, map[], now);
    ReviewsGrow(works.0, c.tenant, c.content.reviews, works.1);
    var reviewed := PersistReviews(works.0, c.tenant, c.content.reviews, works.1).value;
    ChecksGrow(reviewed, c.tenant, c.content.checkRuns);
    CommentsGrow(PersistChecks(reviewed, c.tenant, c.content.checkRuns), c.tenant, c.content.comments);
  }

  lemma DeliveryGrows(installs: Delivery.Installs, s: Delivery.State, a: Delivery.Attempt)
    ensures s.tables.outbox <= Delivery.Step(installs, s, a).tables.outbox
  {
    hide Delivery.Process, Effect, Delivery.Request;
    Delivery.ProcessCases(installs, s.tables, a);
    var o := Delivery.Process(installs, s.tables, a);
    if o.commit.Some? {
      EffectGrows(s.tables, o.commit.value, a.now);
    }
  }

  // ---- outbox and relay agree ----

  /** Row for row: the i-th committed row has the i-th id. */
  ghost predicate Inv(s: State) {
    Delivery.Inv(s.core) && R.Inv(s.relay) && |s.relay.committed| == |s.core.tables.outbox|
  }

  lemma OutboxEvents(s: Delivery.State)
    requires Delivery.Inv(s)
    ensures |s.tables.outbox| == |Delivery.Meaning(s.history).events|
    ensures forall i :: 0 <= i < |s.tables.outbox| ==> s.tables.outbox[i].event == Delivery.Meaning(s.history).events[i]
  {
    hide WorksRep, PeopleRep, ReviewsRep, ChecksRep, DrawnBelow, IdsDistinct, Delivery.Meaning;
  }

  /** Rows under ids of their own become visible after all others. */
  lemma CommitAppends(o: R.Outbox, ids: seq<R.RowId>)
    requires R.PassesInRange(o) && R.Ascending(ids) && forall x :: x in ids ==> x !in o.committed
    ensures R.Step(o, R.CommitRows(ids)).committed == o.committed + ids
  {
    assert R.Enabled(o, R.CommitRows(ids));
  }

  lemma {:induction false} Above(rows: seq<R.RowId>) returns (bound: R.RowId)
    ensures forall x :: x in rows ==> x < bound
  {
    if rows == [] {
      bound := 0;
    } else {
      var last := rows[|rows| - 1];
      bound := Above(rows[..|rows| - 1]);
      bound := if last < bound then bound else last + 1;
      assert rows == rows[..|rows| - 1] + [last];
    }
  }

  /** There are always ids to draw. */
  lemma EveryAttemptFits(installs: Delivery.Installs, s: State, attempt: Delivery.Attempt) returns (ids: seq<R.RowId>)
    requires Inv(s)
    ensures Delivers(installs, s, Deliver(attempt, ids))
  {
    DeliveryGrows(installs, s.core, attempt);
    hide Delivery.Step, Delivery.Inv, R.Inv;
    var bound := Above(s.relay.committed);
    var n := |Delivery.Step(installs, s.core, attempt).tables.outbox| - |s.core.tables.outbox|;
    ids := seq(n, i requires 0 <= i < n => bound + i);
  }

  lemma DeliverKeepsInv(installs: Delivery.Installs, s: State, a: Action)
    requires Inv(s) && Delivers(installs, s, a)
    ensures Inv(Step(installs, s, a))
  {
    R.StepKeepsInv(s.relay, RelayStep(installs, s, a));
    Delivery.StepKeepsInv(installs, s.core, a.attempt);
    CommitAppends(s.relay, a.ids);
    hide R.Step, R.Inv, Delivery.Step, Delivery.Inv, R.Ascending;
  }

  lemma RelayKeepsInv(installs: Delivery.Installs, s: State, a: Action)
    requires Inv(s) && !Delivers(installs, s, a)
    ensures Inv(Step(installs, s, a))
  {
    R.StepKeepsInv(s.relay, RelayStep(installs, s, a));
    RelaysCommitNothing(s.relay, RelayStep(installs, s, a));
    hide Delivery.Inv, R.Inv, R.Step, Fits;
  }

  lemma RelaysCommitNothing(o: R.Outbox, step: R.Action)
    requires R.PassesInRange(o) && (step.CommitRows? ==> step.rows == [])
    ensures R.Step(o, step).committed == o.committed
  {
    hide R.IsBatch, R.Written;
    assert o.committed + [] == o.committed;
  }

  lemma StepKeepsInv(installs: Delivery.Installs, s: State, a: Action)
    requires Inv(s)
    ensures Inv(Step(installs, s, a))
  {
    if Delivers(installs, s, a) {
      DeliverKeepsInv(installs, s, a);
    } else {
      RelayKeepsInv(installs, s, a);
    }
    hide Inv, Step, Delivers;
  }

  lemma {:induction false} RunKeepsInv(installs: Delivery.Installs, run: seq<Action>)
    ensures Inv(Run(installs, run))
  {
    hide Step;
    if run == [] {
      Delivery.InitInv();
      R.EmptyInv();
    } else {
      RunKeepsInv(installs, run[..|run| - 1]);
      hide Inv;
      StepKeepsInv(installs, Run(installs, run[..|run| - 1]), run[|run| - 1]);
    }
  }

  // ---- end to end ----

  lemma {:induction false} MeaningEmitsAllEvents(h: seq<Commit>)
    requires Delivery.AllComplete(h)
    ensures Delivery.Meaning(h).events == Delivery.AllEvents(h)
  {
    hide Complete, EventsOf;
    if h != [] {
      MeaningEmitsAllEvents(h[..|h| - 1]);
    }
  }

  lemma {:induction false} EventsComeFromCommits(h: seq<Commit>, i: nat) returns (j: nat)
    requires i < |Delivery.AllEvents(h)|
    ensures j < |h| && Delivery.AllEvents(h)[i] in EventsOf(h[j].tenant, h[j].content)
  {
    hide EventsOf;
    var before := h[..|h| - 1];
    if i < |Delivery.AllEvents(before)| {
      j := EventsComeFromCommits(before, i);
    } else {
      j := |h| - 1;
      assert Delivery.AllEvents(h)[i] == EventsOf(h[j].tenant, h[j].content)[i - |Delivery.AllEvents(before)|];
    }
  }

  lemma {:induction false} CommitsEmitTheirEvents(h: seq<Commit>, j: nat, e: Event)
    requires j < |h| && e in EventsOf(h[j].tenant, h[j].content)
    ensures e in Delivery.AllEvents(h)
  {
    hide EventsOf;
    if j < |h| - 1 {
      CommitsEmitTheirEvents(h[..|h| - 1], j, e);
    }
  }

  /** Row x of the outbox holds event e. */
  ghost predicate Carries(s: State, x: R.RowId, e: Event) {
    exists i :: 0 <= i < |s.relay.committed| && i < |s.core.tables.outbox|
                && s.relay.committed[i] == x && s.core.tables.outbox[i].event == e
  }

  /** What the outbox holds, in the order of commits. */
  lemma OutboxIsAllEvents(s: State)
    requires Inv(s)
    ensures var events := Delivery.AllEvents(s.core.history);
            && |s.relay.committed| == |events|
            && forall i :: 0 <= i < |events| ==> Carries(s, s.relay.committed[i], events[i])
  {
    OutboxEvents(s.core);
    MeaningEmitsAllEvents(s.core.history);
    hide Delivery.Meaning, Delivery.AllEvents, Rep, Delivery.NoRepeats, Delivery.MarkedExactly, R.Inv;
    forall i | 0 <= i < |s.core.tables.outbox|
      ensures Carries(s, s.relay.committed[i], Delivery.AllEvents(s.core.history)[i])
    {
      assert s.core.tables.outbox[i].event == Delivery.AllEvents(s.core.history)[i];
    }
  }

  /** Every message the normalizer attempts is one the connector wrote to the enriched topic. */
  ghost predicate FromConnector(webhooks: seq<Kafka.Message>, turns: seq<ConnectorService.Turn>,
      attempts: seq<Delivery.Attempt>) {
    forall i :: 0 <= i < |attempts| ==> attempts[i].msg in ConnectorService.Consume(webhooks, turns).enriched
  }

  /** Behind every committed delivery is a webhook with its delivery id, event type and, outside
      the enriched fields and unless its own block is harmful, content. */
  lemma CommitsComeFromWebhooks(
      installs: Delivery.Installs, run: seq<Action>, webhooks: seq<Kafka.Message>, turns: seq<ConnectorService.Turn>,
          j: nat)
    returns (k: nat)
    requires FromConnector(webhooks, turns, Attempts(installs, run)) && j < |Run(installs, run).core.history|
    ensures k < |webhooks|
    ensures var c, raw := Run(installs, run).core.history[j], Kafka.Raw(webhooks[k]);
            && c.deliveryId == raw.deliveryId && c.eventType == raw.eventType
            && (Enrichment.BlockHarmless(webhooks[k]) ==>
                  Enrichment.Strip(Ok(c.content)) == Enrichment.Strip(GitHubSource.Normalize(raw)))
  {
    RunDecomposes(installs, run);
    var c := Run(installs, run).core.history[j];
    hide Run, Delivery.Run, R.Run, ConnectorService.Consume;
    Delivery.CommitsWereRequested(installs, Attempts(installs, run), j);
    var i :| 0 <= i < |Attempts(installs, run)|
        && Delivery.Request(installs, Attempts(installs, run)[i].msg) == Some(c);
    var msg, enriched := Attempts(installs, run)[i].msg, ConnectorService.Consume(webhooks, turns).enriched;
    var n :| 0 <= n < |enriched| && enriched[n] == msg;
    k := ConnectorService.EmissionsHaveWebhooks(webhooks, turns, n);
    hide Enrichment.BlockHarmless, Enrichment.Emits, GitHubSource.Normalize;
    var w :| Enrichment.Emits(webhooks[k], w, msg);
    Enrichment.EmissionNormalizesAlike(webhooks[k], w, msg);
    RequestIsNormalized(installs, msg);
  }

  lemma RequestIsNormalized(installs: Delivery.Installs, msg: Kafka.Message)
    ensures var request := Delivery.Request(installs, msg);
            request.Some? ==>
              && GitHubSource.Normalize(Kafka.Raw(msg)) == Ok(request.value.content)
              && request.value.deliveryId == Kafka.Raw(msg).deliveryId
                  && request.value.eventType == Kafka.Raw(msg).eventType
  {
    hide GitHubSource.Normalize;
  }

  /** Every message of the canonical topic is an event of a committed delivery that some message asked for. */
  lemma NoPhantomEmit(installs: Delivery.Installs, run: seq<Action>, k: nat) returns (e: Event, j: nat)
    requires k < |Run(installs, run).relay.topic|
    ensures var s := Run(installs, run);
            && Carries(s, s.relay.topic[k], e)
            && j < |s.core.history| && e in EventsOf(s.core.history[j].tenant, s.core.history[j].content)
            && Delivery.Requested(installs, Attempts(installs, run), s.core.history[j])
  {
    RunKeepsInv(installs, run);
    RunDecomposes(installs, run);
    var s := Run(installs, run);
    OutboxIsAllEvents(s);
    hide Run, Carries, Delivery.AllEvents, Delivery.Run, EventsOf, R.Run, Delivery.Inv, R.Counted;
    assert s.relay.topic[k] in s.relay.committed;
    var i :| 0 <= i < |s.relay.committed| && s.relay.committed[i] == s.relay.topic[k];
    e := Delivery.AllEvents(s.core.history)[i];
    j := EventsComeFromCommits(s.core.history, i);
    Delivery.CommitsWereRequested(installs, Attempts(installs, run), j);
  }

  /** Every event of every committed delivery has a row, in the topic or still pending. */
  lemma NoLostEmit(installs: Delivery.Installs, run: seq<Action>, j: nat, e: Event) returns (x: R.RowId)
    requires var h := Run(installs, run).core.history;
             j < |h| && e in EventsOf(h[j].tenant, h[j].content)
    ensures var s := Run(installs, run);
            Carries(s, x, e) && (x in s.relay.topic || x in R.Pending(s.relay))
  {
    RunKeepsInv(installs, run);
    RunDecomposes(installs, run);
    var s := Run(installs, run);
    OutboxIsAllEvents(s);
    R.NoLostOrPhantomEmit(Trace(installs, run));
    hide Run, Carries, Delivery.AllEvents, EventsOf, R.Run, Inv;
    CommitsEmitTheirEvents(s.core.history, j, e);
    var i :| 0 <= i < |Delivery.AllEvents(s.core.history)| && Delivery.AllEvents(s.core.history)[i] == e;
    x := s.relay.committed[i];
  }

  /** With one relay and rows that become visible in the order of their ids, consumers that drop
      repeats see the events of the committed deliveries in commit order, without a gap; and all of
      them once nothing is pending. */
  lemma ExactlyOnceInOrder(installs: Delivery.Installs, run: seq<Action>)
    requires RelayOrder.OneRelay(Trace(installs, run)) && R.Ascending(Run(installs, run).relay.committed)
    ensures var s := Run(installs, run);
            var seen, events := RelayOrder.Dedup(s.relay.topic), Delivery.AllEvents(s.core.history);
            && |seen| <= |events|
            && (forall i :: 0 <= i < |seen| ==> Carries(s, seen[i], events[i]))
            && (R.Pending(s.relay) == {} ==> |seen| == |events|)
  {
    RunKeepsInv(installs, run);
    RunDecomposes(installs, run);
    var s := Run(installs, run);
    OutboxIsAllEvents(s);
    R.NoLostOrPhantomEmit(Trace(installs, run));
    RelayOrder.TopicIsPrefixOfOutbox(Trace(installs, run));
    hide Run, Carries, Delivery.AllEvents, R.Run, Inv, RelayOrder.OneRelay, RelayOrder.Dedup;
    var seen := RelayOrder.Dedup(s.relay.topic);
    if R.Pending(s.relay) == {} {
      forall x | x in s.relay.committed ensures x in seen {
        RelayOrder.DedupKeepsRows(s.relay.topic, x);
      }
      WholePrefix(s.relay.committed, seen);
    }
  }

  lemma WholePrefix(all: seq<R.RowId>, prefix: seq<R.RowId>)
    requires R.Ascending(all) && prefix <= all && forall x :: x in all ==> x in prefix
    ensures |prefix| == |all|
  {
    if all != [] {
      var last := all[|all| - 1];
      assert last in prefix;
      var k :| 0 <= k < |prefix| && prefix[k] == last;
      assert all[k] == last;
    }
  }

  /** Whatever the order of commits, with one relay an event of an earlier commit is first
      published before one of a later commit if its row has the smaller id; so are the events of
      one delivery, in the order they were staged. */
  lemma SmallerIdsComeFirst(installs: Delivery.Installs, run: seq<Action>, i: nat, j: nat)
    requires RelayOrder.OneRelay(Trace(installs, run))
    requires var rows := Run(installs, run).relay.committed; i < j < |rows| && rows[i] < rows[j]
    requires Run(installs, run).relay.committed[j] in Run(installs, run).relay.topic
    ensures var s, events := Run(installs, run), Delivery.AllEvents(Run(installs, run).core.history);
            && |events| == |s.relay.committed|
            && Carries(s, s.relay.committed[i], events[i]) && Carries(s, s.relay.committed[j], events[j])
            && RelayOrder.Precedes(s.relay.topic, s.relay.committed[i], s.relay.committed[j])
  {
    RunKeepsInv(installs, run);
    RunDecomposes(installs, run);
    OutboxIsAllEvents(Run(installs, run));
    RelayOrder.OneRelayKeepsOrder(Trace(installs, run));
    hide Run, Carries, Delivery.AllEvents, R.Run, R.Inv, RelayOrder.OneRelay, Inv, RelayOrder.Precedes;
  }
}
