/**
  Tenant isolation over whole runs: what one tenant sees of a multi-tenant run is
  what it would see of its own messages alone.
 */
module Projection {
  import opened Prelude
  import opened Connector
  import opened GitHubSource
  import opened Schema
  import opened Views
  import opened Kafka
  import opened Delivery
  import opened Isolation

  // ---- one tenant's part of a view, of a history, of a run ----

  function WorksOf(ws: Works, tenant: Tenant): Works {
    map k | k in ws && k.tenant == tenant :: ws[k]
  }

  function ReviewsOf(rs: Reviews, tenant: Tenant): Reviews {
    map k | k in rs && k.tenant == tenant :: rs[k]
  }

  function ChecksOf(cs: Checks, tenant: Tenant): Checks {
    map k | k in cs && k.tenant == tenant :: cs[k]
  }

  function PeopleOf(ps: People, tenant: Tenant): People {
    map k | k in ps && k.tenant == tenant :: ps[k]
  }

  function DeliveriesOf(ds: map<DeliveryKey, string>, tenant: Tenant): map<DeliveryKey, string> {
    map k | k in ds && k.tenant == tenant :: ds[k]
  }

  function EventsFor(es: seq<Event>, tenant: Tenant): seq<Event> {
    if es == [] then []
    else (if es[0].tenant == tenant then [es[0]] else []) + EventsFor(es[1..], tenant)
  }

  function ViewOf(v: View, tenant: Tenant): View {
    View(WorksOf(v.works, tenant), ReviewsOf(v.reviews, tenant), ChecksOf(v.checks, tenant),
         PeopleOf(v.people, tenant), DeliveriesOf(v.deliveries, tenant), EventsFor(v.events, tenant))
  }

  function HistoryOf(h: seq<Commit>, tenant: Tenant): seq<Commit> {
    if h == [] then []
    else HistoryOf(h[..|h| - 1], tenant) + if h[|h| - 1].tenant == tenant then [h[|h| - 1]] else []
  }

  predicate IsFor(installs: Installs, a: Attempt, tenant: Tenant) {
    Request(installs, a.msg).Some? && Request(installs, a.msg).value.tenant == tenant
  }

  function RunOf(installs: Installs, run: seq<Attempt>, tenant: Tenant): seq<Attempt> {
    if run == [] then []
    else RunOf(installs, run[..|run| - 1], tenant)
         + if IsFor(installs, run[|run| - 1], tenant) then [run[|run| - 1]] else []
  }

  // ---- one delivery, seen by a tenant ----

  lemma {:induction false} WorksProject(ws: Works, tenant: Tenant, items: seq<WorkItem>, t: Tenant)
    ensures WorksOf(ApplyWorks(ws, tenant, items), t)
         == if tenant == t then ApplyWorks(WorksOf(ws, t), tenant, items) else WorksOf(ws, t)
    decreases |items|
  {
    if items != [] {
      var ws1 := ApplyWork(ws, tenant, items[0]);
      assert WorksOf(ws1, t) == if tenant == t then ApplyWork(WorksOf(ws, t), tenant, items[0]) else WorksOf(ws, t);
      WorksProject(ws1, tenant, items[1..], t);
    }
  }

  lemma {:induction false} ReviewsProject(
      rs: Reviews, tenant: Tenant, reviews: seq<Review>, keys: map<string, WorkKey>, t: Tenant)
    requires ParentsIn(keys, reviews)
    ensures ReviewsOf(ApplyReviews(rs, tenant, reviews, keys), t)
         == if tenant == t then ApplyReviews(ReviewsOf(rs, t), tenant, reviews, keys) else ReviewsOf(rs, t)
    decreases |reviews|
  {
    if reviews != [] {
      var work := keys[reviews[0].prNodeId];
      var rs1 := ApplyReview(rs, tenant, reviews[0], work);
      assert ReviewsOf(rs1, t)
          == if tenant == t then ApplyReview(ReviewsOf(rs, t), tenant, reviews[0], work) else ReviewsOf(rs, t);
      ReviewsProject(rs1, tenant, reviews[1..], keys, t);
    }
  }

  lemma {:induction false} ChecksProject(cs: Checks, tenant: Tenant, checks: seq<CheckRun>, t: Tenant)
    ensures ChecksOf(ApplyChecks(cs, tenant, checks), t)
         == if tenant == t then ApplyChecks(ChecksOf(cs, t), tenant, checks) else ChecksOf(cs, t)
    decreases |checks|
  {
    if checks != [] {
      var cs1 := ApplyCheck(cs, tenant, checks[0]);
      assert ChecksOf(cs1, t) == if tenant == t then ApplyCheck(ChecksOf(cs, t), tenant, checks[0]) else ChecksOf(cs,
          t);
      ChecksProject(cs1, tenant, checks[1..], t);
    }
  }

  lemma {:induction false} PeopleProject(ps: People, tenant: Tenant, reviews: seq<Review>, t: Tenant)
    ensures PeopleOf(ApplyPeople(ps, tenant, reviews), t)
         == if tenant == t then ApplyPeople(PeopleOf(ps, t), tenant, reviews) else PeopleOf(ps, t)
    decreases |reviews|
  {
    if reviews != [] {
      var ps1 := ApplyPerson(ps, tenant, reviews[0]);
      assert PeopleOf(ps1, t)
          == if tenant == t then ApplyPerson(PeopleOf(ps, t), tenant, reviews[0]) else PeopleOf(ps, t);
      PeopleProject(ps1, tenant, reviews[1..], t);
    }
  }

  lemma {:induction false} EventsForConcat(a: seq<Event>, b: seq<Event>, t: Tenant)
    ensures EventsFor(a + b, t) == EventsFor(a, t) + EventsFor(b, t)
  {
    if a == [] {
      assert a + b == b;
    } else {
      assert (a + b)[1..] == a[1..] + b;
      EventsForConcat(a[1..], b, t);
    }
  }

  ghost predicate AllBy(es: seq<Event>, tenant: Tenant) {
    forall i :: 0 <= i < |es| ==> es[i].tenant == tenant
  }

  lemma {:induction false} EventsForOne(es: seq<Event>, tenant: Tenant, t: Tenant)
    requires AllBy(es, tenant)
    ensures EventsFor(es, t) == if tenant == t then es else []
  {
    if es != [] {
      assert es[1..] == es[1..] && forall i :: 0 <= i < |es[1..]| ==> es[1..][i] == es[i + 1];
      EventsForOne(es[1..], tenant, t);
      assert [es[0]] + es[1..] == es;
    }
  }

  lemma {:induction false} WorkEventsBy(tenant: Tenant, items: seq<WorkItem>)
    ensures AllBy(WorkEvents(tenant, items), tenant)
  {
    if items != [] { WorkEventsBy(tenant, items[1..]); }
  }

  lemma {:induction false} ReviewEventsBy(tenant: Tenant, reviews: seq<Review>)
    ensures AllBy(ReviewEvents(tenant, reviews), tenant)
  {
    if reviews != [] { ReviewEventsBy(tenant, reviews[1..]); }
  }

  lemma {:induction false} CheckEventsBy(tenant: Tenant, checks: seq<CheckRun>)
    ensures AllBy(CheckEvents(tenant, checks), tenant)
  {
    if checks != [] { CheckEventsBy(tenant, checks[1..]); }
  }

  lemma {:induction false} CommentEventsBy(tenant: Tenant, comments: seq<Comment>)
    ensures AllBy(CommentEvents(tenant, comments), tenant)
  {
    if comments != [] { CommentEventsBy(tenant, comments[1..]); }
  }

  /** Every event a delivery stages is stamped with the delivery's own tenant. */
  lemma EventsAreOwn(tenant: Tenant, n: Normalized)
    ensures AllBy(EventsOf(tenant, n), tenant)
  {
    WorkEventsBy(tenant, n.workItems);
    ReviewEventsBy(tenant, n.reviews);
    CheckEventsBy(tenant, n.checkRuns);
    CommentEventsBy(tenant, n.comments);
    hide WorkEvents, ReviewEvents, CheckEvents, CommentEvents;
  }

  lemma EventsProject(es: seq<Event>, tenant: Tenant, n: Normalized, t: Tenant)
    ensures EventsFor(es + EventsOf(tenant, n), t)
         == EventsFor(es, t) + if tenant == t then EventsOf(tenant, n) else []
  {
    EventsAreOwn(tenant, n);
    EventsForConcat(es, EventsOf(tenant, n), t);
    EventsForOne(EventsOf(tenant, n), tenant, t);
  }

  lemma MarkProject(ds: map<DeliveryKey, string>, c: Commit, t: Tenant)
    ensures DeliveriesOf(ApplyMark(ds, c), t)
         == if c.tenant == t then ApplyMark(DeliveriesOf(ds, t), c) else DeliveriesOf(ds, t)
  {
  }

  /** A tenant sees its own delivery in full and another tenant's delivery not at all. */
  lemma ApplyProjects(v: View, c: Commit, t: Tenant)
    requires Complete(c)
    ensures ViewOf(Apply(v, c), t) == if c.tenant == t then Apply(ViewOf(v, t), c) else ViewOf(v, t)
  {
    hide ApplyWorks, ApplyReviews, ApplyChecks, ApplyPeople, ApplyMark, EventsOf, NodeKeys, ParentsIn,
         WorksOf, ReviewsOf, ChecksOf, PeopleOf, DeliveriesOf, EventsFor;
    WorksProject(v.works, c.tenant, c.content.workItems, t);
    ReviewsProject(v.reviews, c.tenant, c.content.reviews, NodeKeys(c.tenant, c.content.workItems), t);
    ChecksProject(v.checks, c.tenant, c.content.checkRuns, t);
    PeopleProject(v.people, c.tenant, c.content.reviews, t);
    MarkProject(v.deliveries, c, t);
    EventsProject(v.events, c.tenant, c.content, t);
    assert EventsFor(v.events, t) + [] == EventsFor(v.events, t);
  }

  lemma {:induction false} MeaningProjects(h: seq<Commit>, t: Tenant)
    requires AllComplete(h)
    ensures AllComplete(HistoryOf(h, t)) && ViewOf(Meaning(h), t) == Meaning(HistoryOf(h, t))
  {
    hide Complete, Apply, ViewOf;
    if h == [] {
      NothingOf(t);
    } else {
      var before, c := h[..|h| - 1], h[|h| - 1];
      MeaningProjects(before, t);
      ApplyProjects(Meaning(before), c, t);
      if c.tenant == t {
        MeaningOfOneMore(HistoryOf(before, t), c);
      } else {
        assert HistoryOf(h, t) == HistoryOf(before, t);
      }
    }
  }

  lemma NothingOf(t: Tenant)
    ensures ViewOf(NOTHING, t) == NOTHING
  {
  }

  // ---- whole runs ----

  lemma {:induction false} CommittedInHistoryOf(h: seq<Commit>, t: Tenant, id: string)
    ensures (exists i :: 0 <= i < |h| && h[i].tenant == t && h[i].deliveryId == id)
       <==> (exists i :: 0 <= i < |HistoryOf(h, t)|
                         && HistoryOf(h, t)[i].tenant == t && HistoryOf(h, t)[i].deliveryId == id)
  {
    if h != [] {
      var before, last, own := h[..|h| - 1], h[|h| - 1], HistoryOf(h[..|h| - 1], t);
      CommittedInHistoryOf(before, t, id);
      if i :| 0 <= i < |h| && h[i].tenant == t && h[i].deliveryId == id {
        if i < |before| {
          assert before[i] == h[i];
          var j :| 0 <= j < |own| && own[j].tenant == t && own[j].deliveryId == id;
          assert HistoryOf(h, t)[j] == own[j];
        } else {
          assert HistoryOf(h, t)[|own|] == last;
        }
      }
      if j :| 0 <= j < |HistoryOf(h, t)| && HistoryOf(h, t)[j].tenant == t && HistoryOf(h, t)[j].deliveryId == id {
        if j < |own| {
          assert own[j] == HistoryOf(h, t)[j];
          var i :| 0 <= i < |before| && before[i].tenant == t && before[i].deliveryId == id;
          assert h[i] == before[i];
        } else {
          assert h[|before|] == last;
        }
      }
    }
  }

  /** Whether a delivery is a duplicate depends on its own tenant's history only. */
  lemma FreshnessIsLocal(a: State, b: State, t: Tenant, id: string)
    requires MarkedExactly(a.tables.deliveries, a.history) && MarkedExactly(b.tables.deliveries, b.history)
    requires b.history == HistoryOf(a.history, t)
    ensures Fresh(a.tables, t, id) <==> Fresh(b.tables, t, id)
  {
    CommittedInHistoryOf(a.history, t, id);
    if id != "" {
      assert DeliveryKey(t, id) in a.tables.deliveries
        <==> exists i :: 0 <= i < |a.history| && a.history[i].tenant == t && a.history[i].deliveryId == id;
      assert DeliveryKey(t, id) in b.tables.deliveries
        <==> exists i :: 0 <= i < |b.history| && b.history[i].tenant == t && b.history[i].deliveryId == id;
    }
  }

  lemma SameDecision(installs: Installs, t: Tables, u: Tables, a: Attempt)
    requires Request(installs, a.msg).Some?
    requires var c := Request(installs, a.msg).value;
             Fresh(t, c.tenant, c.deliveryId) <==> Fresh(u, c.tenant, c.deliveryId)
    ensures Process(installs, t, a).reply == Process(installs, u, a).reply
    ensures Process(installs, t, a).commit == Process(installs, u, a).commit
  {
    hide Normalize, Effect, Fresh, Complete;
    RequestsAreComplete(installs, a.msg);
    PersistNeverFails(t, Request(installs, a.msg).value, a.now);
    PersistNeverFails(u, Request(installs, a.msg).value, a.now);
  }

  lemma HistoryOfOneMore(h: seq<Commit>, c: Commit, t: Tenant)
    ensures HistoryOf(h + [c], t) == HistoryOf(h, t) + if c.tenant == t then [c] else []
  {
    assert (h + [c])[..|h|] == h;
  }

  lemma StepProjects(installs: Installs, s: State, u: State, a: Attempt, t: Tenant)
    requires Inv(s) && Inv(u) && u.history == HistoryOf(s.history, t)
    ensures var s' := Step(installs, s, a);
            HistoryOf(s'.history, t) == (if IsFor(installs, a, t) then Step(installs, u, a) else u).history
  {
    hide Rep, Process, Request, AllComplete, NoRepeats, MarkedExactly, HistoryOf;
    ProcessCases(installs, s.tables, a);
    var o := Process(installs, s.tables, a);
    if IsFor(installs, a, t) {
      FreshnessIsLocal(s, u, t, Request(installs, a.msg).value.deliveryId);
      SameDecision(installs, s.tables, u.tables, a);
    }
    if o.commit.Some? {
      HistoryOfOneMore(s.history, o.commit.value, t);
    }
  }

  lemma {:induction false} HistoriesProject(installs: Installs, run: seq<Attempt>, t: Tenant)
    ensures Run(installs, RunOf(installs, run, t)).history == HistoryOf(Run(installs, run).history, t)
    decreases |run|
  {
    hide Step, Inv, IsFor, HistoryOf;
    if run == [] {
      assert HistoryOf([], t) == [] by { NoHistory(t); }
    } else {
      var before, a := run[..|run| - 1], run[|run| - 1];
      HistoriesProject(installs, before, t);
      RunKeepsInv(installs, before);
      var own := RunOf(installs, before, t);
      RunKeepsInv(installs, own);
      StepProjects(installs, Run(installs, before), Run(installs, own), a, t);
      if IsFor(installs, a, t) {
        assert (own + [a])[..|own|] == own;
      } else {
        assert own + [] == own;
      }
    }
  }

  lemma NoHistory(t: Tenant)
    ensures HistoryOf([], t) == []
  {
  }

  /** Running one tenant's messages alone produces, up to generated values, exactly that
      tenant's part of what the interleaved run produces. */
  lemma TenantProjection(installs: Installs, run: seq<Attempt>, t: Tenant)
    ensures var full, own := Run(installs, run), Run(installs, RunOf(installs, run, t));
            && own.history == HistoryOf(full.history, t)
            && AllComplete(full.history)
            && Rep(full.tables, Meaning(full.history))
            && Rep(own.tables, ViewOf(Meaning(full.history), t))
  {
    hide Rep, ViewOf, HistoryOf, NoRepeats, Complete;
    HistoriesProject(installs, run, t);
    ExactlyOnceEffect(installs, run);
    ExactlyOnceEffect(installs, RunOf(installs, run, t));
    MeaningProjects(Run(installs, run).history, t);
  }

  /** What the other tenants did changes no reply to a tenant's own message. */
  lemma RepliesDoNotDependOnOthers(installs: Installs, run: seq<Attempt>, a: Attempt, t: Tenant)
    requires IsFor(installs, a, t)
    ensures Process(installs, Run(installs, run).tables, a).reply
         == Process(installs, Run(installs, RunOf(installs, run, t)).tables, a).reply
  {
    hide Process, HistoryOf, Rep, MarkedExactly, NoRepeats, Complete, Fresh;
    var own := RunOf(installs, run, t);
    HistoriesProject(installs, run, t);
    RunKeepsInv(installs, run);
    RunKeepsInv(installs, own);
    FreshnessIsLocal(Run(installs, run), Run(installs, own), t, Request(installs, a.msg).value.deliveryId);
    SameDecision(installs, Run(installs, run).tables, Run(installs, own).tables, a);
  }

  lemma NoRequestNoChange(installs: Installs, t: Tables, a: Attempt)
    requires Request(installs, a.msg).None?
    ensures Process(installs, t, a).tables == t
  {
    hide Normalize, Effect, Fresh;
  }

  lemma RollbackTouchesNothing(tenant: Tenant, t: Tables, t': Tables)
    requires exists i: nat, r: nat :: t' == Rollback(t, i, r)
    ensures OthersUntouched(tenant, t, t')
  {
    hide OtherWorks, OtherReviews, OtherChecks, OtherContributors, OtherLinks, OtherDeliveries, OtherOutbox;
  }

  lemma DrawnInRuns(installs: Installs, run: seq<Attempt>)
    ensures DrawnBelow(Run(installs, run).tables)
  {
    hide Run, Complete, Meaning, MarkedExactly, NoRepeats, WorksRep, PeopleRep, ReviewsRep, ChecksRep, OutboxRep,
        DrawnBelow;
    RunKeepsInv(installs, run);
  }

  /** An attempt writes rows of its message's tenant only; one without a tenant writes none. */
  lemma AttemptsAreConfined(installs: Installs, run: seq<Attempt>, a: Attempt)
    ensures var t, t' := Run(installs, run).tables, Step(installs, Run(installs, run), a).tables;
            match Request(installs, a.msg)
            case None => t' == t
            case Some(c) => OthersUntouched(c.tenant, t, t')
  {
    hide Run, Process, Request, Effect, Fresh, KeepsIds, OthersUntouched, DrawnBelow;
    var t := Run(installs, run).tables;
    if Request(installs, a.msg).None? {
      NoRequestNoChange(installs, t, a);
    } else {
      var c, o := Request(installs, a.msg).value, Process(installs, t, a);
      ProcessCases(installs, t, a);
      if o.commit.None? {
        RollbackTouchesNothing(c.tenant, t, o.tables);
      } else {
        DrawnInRuns(installs, run);
        EffectConfined(t, c, a.now);
      }
    }
  }
}
