/**
  What canonical events say about the rows: a delivery's events tell its entities, and
  in every later state the last event about a row says what the row says.
 */
module Mirror {
  import opened Prelude
  import opened Connector
  import opened Schema
  import opened Views
  import opened Delivery
  import opened Announcements
  import RelayOrder
  import RelayProtocol
  import Spine
  import TxTables

  // ---- all events of a delivery ----

  lemma {:induction false} WorksAreTold(tenant: Tenant, items: seq<WorkItem>)
    ensures var es := WorkEvents(tenant, items);
            |es| == |Announced(items)| && forall k :: 0 <= k < |es| ==> TellsWork(es[k], tenant, Announced(items)[k])
  {
    if items != [] {
      WorksAreTold(tenant, items[1..]);
    }
  }

  lemma {:induction false} ReviewsAreTold(tenant: Tenant, reviews: seq<Review>)
    ensures var es := ReviewEvents(tenant, reviews);
            |es| == |Signed(reviews)| && forall k :: 0 <= k < |es| ==> TellsReview(es[k], tenant, Signed(reviews)[k])
  {
    if reviews != [] {
      ReviewsAreTold(tenant, reviews[1..]);
    }
  }

  lemma {:induction false} ChecksAreTold(tenant: Tenant, checks: seq<CheckRun>)
    ensures var es := CheckEvents(tenant, checks);
            |es| == |checks| && forall k :: 0 <= k < |es| ==> TellsCheck(es[k], tenant, checks[k])
  {
    if checks != [] {
      ChecksAreTold(tenant, checks[1..]);
    }
  }

  lemma {:induction false} CommentsAreTold(tenant: Tenant, comments: seq<Comment>)
    ensures var es := CommentEvents(tenant, comments);
            |es| == |comments| && forall k :: 0 <= k < |es| ==> TellsComment(es[k], tenant, comments[k])
  {
    if comments != [] {
      CommentsAreTold(tenant, comments[1..]);
    }
  }

  /** A delivery's events are, in order, one for each item to be announced, each review that names a
      reviewer, each check and each comment, telling exactly what the entity is. */
  lemma DeliveryIsTold(tenant: Tenant, n: Normalized)
    ensures var es, w, r, c := EventsOf(tenant, n), |Announced(n.workItems)|, |Signed(n.reviews)|, |n.checkRuns|;
            && |es| == w + r + c + |n.comments|
            && (forall k :: 0 <= k < w ==> TellsWork(es[k], tenant, Announced(n.workItems)[k]))
            && (forall k :: w <= k < w + r ==> TellsReview(es[k], tenant, Signed(n.reviews)[k - w]))
            && (forall k :: w + r <= k < w + r + c ==> TellsCheck(es[k], tenant, n.checkRuns[k - w - r]))
            && (forall k :: w + r + c <= k < |es| ==> TellsComment(es[k], tenant, n.comments[k - w - r - c]))
  {
    hide TellsWork, TellsReview, TellsCheck, TellsComment, WorkEvents, ReviewEvents, CheckEvents, CommentEvents;
    WorksAreTold(tenant, n.workItems);
    ReviewsAreTold(tenant, n.reviews);
    ChecksAreTold(tenant, n.checkRuns);
    CommentsAreTold(tenant, n.comments);
  }

  // ---- in every later state ----

  /** Which row an event is about. */
  datatype Subject = WorkRowAt(work: WorkKey) | ReviewRowAt(review: SourceKey) | CheckRowAt(check: SourceKey) | NoRow

  function SubjectOf(e: Event): Subject {
    match e.payload
    case WorkItemPayload(kind, repo, nodeId, _, _, _, _, _, _, _, _, _, _) =>
      WorkRowAt(WorkKey(e.tenant, repo, kind, nodeId))
    case ReviewPayload(_, _, sourceId, _, _, _) => ReviewRowAt(SourceKey(e.tenant, sourceId))
    case CheckPayload(_, sourceId, _, _, _) => CheckRowAt(SourceKey(e.tenant, sourceId))
    case CommentPayload(_, _, _, _, _, _) => NoRow
  }

  /** The row the event is about is there and matches it. */
  ghost predicate Holds(v: View, e: Event) {
    match SubjectOf(e)
    case WorkRowAt(key) => key in v.works && MatchesWork(e, v.works[key])
    case ReviewRowAt(key) => key in v.reviews && MatchesReview(e, v.reviews[key].cols)
    case CheckRowAt(key) => key in v.checks && MatchesCheck(e, v.checks[key])
    case NoRow => true
  }

  /** No later event is about the same row. */
  ghost predicate IsLatest(events: seq<Event>, i: int) {
    0 <= i < |events| && forall j :: i < j < |events| ==> SubjectOf(events[j]) != SubjectOf(events[i])
  }

  ghost predicate Mirrors(v: View) {
    forall i :: IsLatest(v.events, i) ==> Holds(v, v.events[i])
  }

  /** One more event, true of its row, while the rows of other events still match them. */
  lemma MirrorsOneMore(v: View, v': View, e: Event)
    requires Mirrors(v) && v'.events == v.events + [e] && Holds(v', e)
    requires forall f :: SubjectOf(f) != SubjectOf(e) && Holds(v, f) ==> Holds(v', f)
    ensures Mirrors(v')
  {
    hide Holds, SubjectOf;
    forall i | IsLatest(v'.events, i) ensures Holds(v', v'.events[i]) {
      if i < |v.events| {
        assert v'.events[i] == v.events[i] && v'.events[|v.events|] == e;
        assert forall j :: i < j < |v.events| ==> v'.events[j] == v.events[j];
        assert IsLatest(v.events, i);
      }
    }
  }

  lemma MirrorsSameEvents(v: View, v': View)
    requires Mirrors(v) && v'.events == v.events && forall f :: Holds(v, f) ==> Holds(v', f)
    ensures Mirrors(v')
  {
    hide Holds, SubjectOf;
  }

  lemma WorkMirrors(v: View, tenant: Tenant, wi: WorkItem)
    requires Mirrors(v)
    ensures Mirrors(v.(works := ApplyWork(v.works, tenant, wi), events := v.events + WorkEmits(tenant, wi)))
  {
    var v' := v.(works := ApplyWork(v.works, tenant, wi), events := v.events + WorkEmits(tenant, wi));
    hide Mirrors;
    if wi.event.NoEvent? {
      assert v'.events == v.events;
      MirrorsSameEvents(v, v');
    } else {
      MirrorsOneMore(v, v', WorkEvent(tenant, wi));
    }
  }

  lemma {:induction false} WorksMirror(v: View, tenant: Tenant, items: seq<WorkItem>)
    requires Mirrors(v)
    ensures Mirrors(v.(works := ApplyWorks(v.works, tenant, items), events := v.events + WorkEvents(tenant, items)))
    decreases |items|
  {
    hide Mirrors, ApplyWork, WorkEmits;
    if items == [] {
      assert v.events + [] == v.events;
    } else {
      WorkMirrors(v, tenant, items[0]);
      var v' := v.(works := ApplyWork(v.works, tenant, items[0]), events := v.events + WorkEmits(tenant, items[0]));
      WorksMirror(v', tenant, items[1..]);
      assert v.events + WorkEvents(tenant, items) == v'.events + WorkEvents(tenant, items[1..]);
    }
  }

  lemma ReviewMirrors(v: View, tenant: Tenant, rv: Review, work: WorkKey)
    requires Mirrors(v)
    ensures Mirrors(v.(reviews := ApplyReview(v.reviews, tenant, rv, work),
                       events := v.events + ReviewEmits(tenant, rv)))
  {
    var v' := v.(reviews := ApplyReview(v.reviews, tenant, rv, work), events := v.events + ReviewEmits(tenant, rv));
    hide Mirrors;
    if rv.reviewerLogin == "" {
      assert v' == v;
    } else {
      MirrorsOneMore(v, v', ReviewEvent(tenant, rv));
    }
  }

  lemma {:induction false} ReviewsMirror(v: View, tenant: Tenant, reviews: seq<Review>, keys: map<string, WorkKey>)
    requires Mirrors(v) && ParentsIn(keys, reviews)
    ensures Mirrors(v.(reviews := ApplyReviews(v.reviews, tenant, reviews, keys),
                       events := v.events + ReviewEvents(tenant, reviews)))
    decreases |reviews|
  {
    hide Mirrors, ApplyReview, ReviewEmits;
    if reviews == [] {
      assert v.events + [] == v.events;
    } else {
      var rv, work := reviews[0], keys[reviews[0].prNodeId];
      ReviewMirrors(v, tenant, rv, work);
      var v' := v.(reviews := ApplyReview(v.reviews, tenant, rv, work), events := v.events + ReviewEmits(tenant, rv));
      ReviewsMirror(v', tenant, reviews[1..], keys);
      assert v.events + ReviewEvents(tenant, reviews) == v'.events + ReviewEvents(tenant, reviews[1..]);
    }
  }

  lemma CheckMirrors(v: View, tenant: Tenant, cr: CheckRun)
    requires Mirrors(v)
    ensures Mirrors(v.(checks := ApplyCheck(v.checks, tenant, cr), events := v.events + [CheckEvent(tenant, cr)]))
  {
    var v' := v.(checks := ApplyCheck(v.checks, tenant, cr), events := v.events + [CheckEvent(tenant, cr)]);
    hide Mirrors;
    MirrorsOneMore(v, v', CheckEvent(tenant, cr));
  }

  lemma {:induction false} ChecksMirror(v: View, tenant: Tenant, checks: seq<CheckRun>)
    requires Mirrors(v)
    ensures Mirrors(v.(checks := ApplyChecks(v.checks, tenant, checks),
                       events := v.events + CheckEvents(tenant, checks)))
    decreases |checks|
  {
    hide Mirrors, ApplyCheck, CheckEvent;
    if checks == [] {
      assert v.events + [] == v.events;
    } else {
      CheckMirrors(v, tenant, checks[0]);
      var e := CheckEvent(tenant, checks[0]);
      var v' := v.(checks := ApplyCheck(v.checks, tenant, checks[0]), events := v.events + [e]);
      ChecksMirror(v', tenant, checks[1..]);
      assert v.events + CheckEvents(tenant, checks) == v'.events + CheckEvents(tenant, checks[1..]);
    }
  }

  lemma {:induction false} CommentsMirror(v: View, tenant: Tenant, comments: seq<Comment>)
    requires Mirrors(v)
    ensures Mirrors(v.(events := v.events + CommentEvents(tenant, comments)))
    decreases |comments|
  {
    hide Mirrors;
    if comments == [] {
      assert v.events + [] == v.events;
    } else {
      var e := CommentEvent(tenant, comments[0]);
      var v' := v.(events := v.events + [e]);
      MirrorsOneMore(v, v', e);
      CommentsMirror(v', tenant, comments[1..]);
      assert v.events + CommentEvents(tenant, comments) == v'.events + CommentEvents(tenant, comments[1..]);
    }
  }

  lemma ApplyMirrors(v: View, c: Commit)
    requires Mirrors(v) && Complete(c)
    ensures Mirrors(Apply(v, c))
  {
    hide Mirrors, ApplyWorks, ApplyReviews, ApplyChecks, ApplyPeople, ApplyMark, WorkEvents, ReviewEvents, CheckEvents,
         CommentEvents, ParentsIn;
    var n, keys := c.content, NodeKeys(c.tenant, c.content.workItems);
    WorksMirror(v, c.tenant, n.workItems);
    var v1 := v.(works := ApplyWorks(v.works, c.tenant, n.workItems),
                 events := v.events + WorkEvents(c.tenant, n.workItems));
    ReviewsMirror(v1, c.tenant, n.reviews, keys);
    var v2 := v1.(reviews := ApplyReviews(v.reviews, c.tenant, n.reviews, keys),
                  events := v1.events + ReviewEvents(c.tenant, n.reviews));
    ChecksMirror(v2, c.tenant, n.checkRuns);
    var v3 := v2.(checks := ApplyChecks(v.checks, c.tenant, n.checkRuns),
                  events := v2.events + CheckEvents(c.tenant, n.checkRuns));
    CommentsMirror(v3, c.tenant, n.comments);
    assert v3.events + CommentEvents(c.tenant, n.comments) == Apply(v, c).events;
    RestDoesNotMatter(v3.(events := Apply(v, c).events), Apply(v, c));
  }

  lemma RestDoesNotMatter(v: View, v': View)
    requires v'.works == v.works && v'.reviews == v.reviews && v'.checks == v.checks && v'.events == v.events
    ensures Mirrors(v) ==> Mirrors(v')
  {
    hide MatchesWork, MatchesReview, MatchesCheck, IsLatest;
  }

  lemma {:induction false} MeaningMirrors(h: seq<Commit>)
    requires AllComplete(h)
    ensures Mirrors(Meaning(h))
  {
    hide Complete, Apply;
    if h != [] {
      MeaningMirrors(h[..|h| - 1]);
      hide Mirrors;
      ApplyMirrors(Meaning(h[..|h| - 1]), h[|h| - 1]);
    }
  }

  /** The stored row the event is about matches it. */
  ghost predicate HoldsOf(t: Tables, e: Event) {
    match SubjectOf(e)
    case WorkRowAt(key) => key in t.works && MatchesWork(e, t.works[key].cols)
    case ReviewRowAt(key) => key in t.reviews && MatchesReview(e, t.reviews[key].cols)
    case CheckRowAt(key) => key in t.checks && MatchesCheck(e, t.checks[key].cols)
    case NoRow => true
  }

  /** In every reachable state the last event about a work item, review or check says what its row
      says: title, status, stage and sizes, or state, count and time, or conclusion and time. */
  lemma EventsMirrorRows(installs: Installs, run: seq<Attempt>, i: nat)
    requires var outbox := Run(installs, run).tables.outbox;
             && i < |outbox|
             && forall j :: i < j < |outbox| ==> SubjectOf(outbox[j].event) != SubjectOf(outbox[i].event)
    ensures HoldsOf(Run(installs, run).tables, Run(installs, run).tables.outbox[i].event)
  {
    var s := Run(installs, run);
    ExactlyOnceEffect(installs, run);
    MeaningMirrors(s.history);
    hide Run, Meaning, NoRepeats, AllComplete, PeopleRep, WorksRep, ReviewsRep, ChecksRep, OutboxRep, DrawnBelow,
         IdsDistinct, SubjectOf, HoldsOf, Mirrors;
    RowsAreThoseOf(s.tables, Meaning(s.history), i);
  }

  lemma RowsAreThoseOf(t: Tables, v: View, i: nat)
    requires WorksRep(t.works, v.works) && ReviewsRep(t.reviews, t.works, t.links, v.reviews)
    requires ChecksRep(t.checks, v.checks) && OutboxRep(t.outbox, t.nextOutboxId, v.events) && Mirrors(v)
    requires i < |t.outbox|
    requires forall j :: i < j < |t.outbox| ==> SubjectOf(t.outbox[j].event) != SubjectOf(t.outbox[i].event)
    ensures HoldsOf(t, t.outbox[i].event)
  {
    hide SubjectOf, MatchesWork, MatchesReview, MatchesCheck, LinkedTo;
    assert IsLatest(v.events, i);
  }

  /** The same of the committed rows of whole transactions that race. */
  lemma RacingEventsMirrorRows(acts: seq<TxTables.Action>, i: nat)
    requires IsLatest(TxTables.Run(acts).outbox, i)
    ensures var s := TxTables.Run(acts);
            match SubjectOf(s.outbox[i])
            case WorkRowAt(key) =>
              TxTables.WorkAt(key) in s.db && s.db[TxTables.WorkAt(key)].WorkCell?
              && MatchesWork(s.outbox[i], s.db[TxTables.WorkAt(key)].workCols)
            case ReviewRowAt(key) =>
              TxTables.ReviewAt(key) in s.db && s.db[TxTables.ReviewAt(key)].ReviewCell?
              && MatchesReview(s.outbox[i], s.db[TxTables.ReviewAt(key)].view.cols)
            case CheckRowAt(key) =>
              TxTables.CheckAt(key) in s.db && s.db[TxTables.CheckAt(key)].CheckCell?
              && MatchesCheck(s.outbox[i], s.db[TxTables.CheckAt(key)].checkCols)
            case NoRow => true
  {
    var s := TxTables.Run(acts);
    TxTables.RacingExactlyOnce(acts);
    MeaningMirrors(s.log);
    Spine.MeaningEmitsAllEvents(s.log);
    hide TxTables.Run, Meaning, AllEvents, NoRepeats, AllComplete, SubjectOf, IsLatest, MatchesWork, MatchesReview,
         MatchesCheck, TxTables.PeopleIn, TxTables.MarksIn;
    assert Holds(Meaning(s.log), s.outbox[i]);
  }

  lemma CarriesOne(s: Spine.State, x: RelayProtocol.RowId, e: Event, f: Event)
    requires RelayProtocol.Ascending(s.relay.committed) && Spine.Carries(s, x, e) && Spine.Carries(s, x, f)
    ensures e == f
  {
  }

  /** With one relay and rows that become visible in the order of their ids: once nothing is
      pending, the last event that consumers who drop repeats have seen about a row says what the
      row says. */
  lemma ConsumersMirrorRows(installs: Installs, run: seq<Spine.Action>, i: nat, e: Event)
    requires RelayOrder.OneRelay(Spine.Trace(installs, run))
    requires RelayProtocol.Ascending(Spine.Run(installs, run).relay.committed)
    requires RelayProtocol.Pending(Spine.Run(installs, run).relay) == {}
    requires var s := Spine.Run(installs, run);
             var seen := RelayOrder.Dedup(s.relay.topic);
             && i < |seen| && Spine.Carries(s, seen[i], e)
             && forall j, f :: i < j < |seen| && Spine.Carries(s, seen[j], f) ==> SubjectOf(f) != SubjectOf(e)
    ensures HoldsOf(Spine.Run(installs, run).core.tables, e)
  {
    var s := Spine.Run(installs, run);
    var attempts := Spine.Attempts(installs, run);
    Spine.ExactlyOnceInOrder(installs, run);
    Spine.RunDecomposes(installs, run);
    var seen, events := RelayOrder.Dedup(s.relay.topic), AllEvents(s.core.history);
    CarriesOne(s, seen[i], e, events[i]);
    StagedIsAllEvents(installs, attempts);
    hide Spine.Run, Spine.Trace, Spine.Carries, Run, AllEvents, HoldsOf, SubjectOf, RelayOrder.OneRelay,
         RelayOrder.Dedup, RelayProtocol.Ascending, RelayProtocol.Pending;
    var outbox := s.core.tables.outbox;
    forall j | i < j < |outbox| ensures SubjectOf(outbox[j].event) != SubjectOf(outbox[i].event) {
      assert Spine.Carries(s, seen[j], events[j]);
    }
    EventsMirrorRows(installs, attempts, i);
  }

  lemma StagedIsAllEvents(installs: Installs, run: seq<Attempt>)
    ensures var s := Run(installs, run);
            && |s.tables.outbox| == |AllEvents(s.history)|
            && forall i :: 0 <= i < |s.tables.outbox| ==> s.tables.outbox[i].event == AllEvents(s.history)[i]
  {
    ExactlyOnceEffect(installs, run);
    Spine.MeaningEmitsAllEvents(Run(installs, run).history);
    hide Run, Meaning, AllEvents, AllComplete, NoRepeats, WorksRep, PeopleRep, ReviewsRep, ChecksRep, DrawnBelow,
         IdsDistinct;
  }
}
