/**
  The normalizer as a transition system. One step is one attempt at one message;
  the environment chooses the message, freely and as often as it likes, and how
  the attempt's lookups, statements and commit turn out. Every at-least-once
  delivery, crash, rollback and lost acknowledgement is a sequence of such steps.
 */
module Delivery {
  import opened Prelude
  import opened Connector
  import opened GitHubSource
  import opened Kafka
  import opened Schema
  import opened Views
  import Isolation
  import Enrichment

  /** github_installation. */
  type Installs = map<Int64, Tenant>

  /** How process returns: nil, a permanentError, any other error. */
  datatype Reply = Done | Permanent | Transient

  /** How the database treats an attempt. */
  datatype Fate =
    | LookupFails                                        // ResolveTenant fails
    | Aborts(drawnIds: nat, drawnRows: nat)              // some statement or the commit fails: rolled back
    | Commits
    | CommitsUnreported                                  // committed, but the client sees an error or dies

  datatype Attempt = Attempt(msg: Message, now: Time, fate: Fate)

  datatype Outcome = Outcome(tables: Tables, reply: Reply, commit: Option<Commit>)

  /** What a message asks for once its tenant is known: None when it is bad, skipped, empty
      or of an unknown installation. */
  function Request(installs: Installs, msg: Message): Option<Commit> {
    match Normalize(Raw(msg))
    case Err(_) => None
    case Ok(n) =>
      if n.skip || n.Empty() || n.installation !in installs then None
      else Some(Commit(installs[n.installation], Raw(msg).deliveryId, Raw(msg).eventType, n))
  }

  function Rollback(t: Tables, drawnIds: nat, drawnRows: nat): Tables {
    t.(nextId := t.nextId + drawnIds, nextOutboxId := t.nextOutboxId + drawnRows)
  }

  /** process, as a function of the attempt. */
  function Process(installs: Installs, t: Tables, a: Attempt): Outcome {
    match Normalize(Raw(a.msg))
    case Err(_) => Outcome(t, Permanent, None)
    case Ok(n) =>
      if n.skip || n.Empty() then Outcome(t, Done, None)
      else if a.fate.LookupFails? then Outcome(t, Transient, None)
      else if n.installation !in installs then Outcome(t, Done, None)
      else Transact(t, Commit(installs[n.installation], Raw(a.msg).deliveryId, Raw(a.msg).eventType, n), a)
  }

  /** The transaction of WithTenant: mark the delivery, persist, commit. */
  function Transact(t: Tables, c: Commit, a: Attempt): Outcome {
    if a.fate.Aborts? then Outcome(Rollback(t, a.fate.drawnIds, a.fate.drawnRows), Transient, None)
    else if !Fresh(t, c.tenant, c.deliveryId) then Outcome(t, Done, None)
    else
      match Effect(t, c, a.now)
      case Err(_) => Outcome(t, Permanent, None)
      case Ok(t') => Outcome(t', if a.fate.Commits? then Done else Transient, Some(c))
  }

  /** history: the committed deliveries, in commit order. */
  datatype State = State(tables: Tables, history: seq<Commit>)

  const INIT := State(EMPTY, [])

  function Step(installs: Installs, s: State, a: Attempt): State {
    var o := Process(installs, s.tables, a);
    State(o.tables, if o.commit.Some? then s.history + [o.commit.value] else s.history)
  }

  function Run(installs: Installs, run: seq<Attempt>): State {
    if run == [] then INIT else Step(installs, Run(installs, run[..|run| - 1]), run[|run| - 1])
  }

  // ---- the reference: each committed delivery applied once ----

  ghost predicate AllComplete(h: seq<Commit>) {
    forall i :: 0 <= i < |h| ==> Complete(h[i])
  }

  ghost function Meaning(h: seq<Commit>): View
    requires AllComplete(h)
  {
    if h == [] then NOTHING else Apply(Meaning(h[..|h| - 1]), h[|h| - 1])
  }

  /** The events of the committed deliveries, in commit order. */
  function AllEvents(h: seq<Commit>): seq<Event> {
    if h == [] then [] else AllEvents(h[..|h| - 1]) + EventsOf(h[|h| - 1].tenant, h[|h| - 1].content)
  }

  ghost predicate NoRepeats(h: seq<Commit>) {
    forall i, j :: 0 <= i < j < |h| && h[i].tenant == h[j].tenant && h[i].deliveryId == h[j].deliveryId
                   ==> h[i].deliveryId == ""
  }

  /** processed_delivery holds exactly the non-empty delivery ids committed so far. */
  ghost predicate MarkedExactly(ds: map<DeliveryKey, string>, h: seq<Commit>) {
    && (forall k :: k in ds ==> exists i :: 0 <= i < |h| && DeliveryKey(h[i].tenant, h[i].deliveryId) == k)
    && (forall i :: 0 <= i < |h| && h[i].deliveryId != "" ==> DeliveryKey(h[i].tenant, h[i].deliveryId) in ds)
  }

  /** A committed delivery accounts for the request: the same delivery of the same tenant, or,
      where there is no id to compare, the same content. */
  ghost predicate Accounted(h: seq<Commit>, c: Commit) {
    exists i :: 0 <= i < |h| && h[i].tenant == c.tenant && h[i].deliveryId == c.deliveryId
                && (c.deliveryId == "" ==> h[i] == c)
  }

  ghost predicate Inv(s: State) {
    && AllComplete(s.history)
    && Rep(s.tables, Meaning(s.history))
    && NoRepeats(s.history)
    && MarkedExactly(s.tables.deliveries, s.history)
  }

  lemma InitInv()
    ensures Inv(INIT)
  {
    InitRep();
  }

  lemma RequestsAreComplete(installs: Installs, msg: Message)
    ensures Request(installs, msg).Some? ==> Complete(Request(installs, msg).value)
  {
    hide WellFormed, Normalize, Complete;
    if Request(installs, msg).Some? {
      ResultsAreWellFormed(Raw(msg));
      NormalizedIsComplete(Request(installs, msg).value);
    }
  }

  /** The three things one attempt can do. */
  lemma ProcessCases(installs: Installs, t: Tables, a: Attempt)
    ensures var o, request := Process(installs, t, a), Request(installs, a.msg);
            || (o.commit.None? && exists i: nat, r: nat :: o.tables == Rollback(t, i, r))
            || (request.Some? && o.commit == request && Fresh(t, request.value.tenant, request.value.deliveryId)
                && Effect(t, request.value, a.now) == Ok(o.tables))
  {
    hide Normalize, Effect, Fresh;
    assert Rollback(t, 0, 0) == t;
    if a.fate.Aborts? {
      assert Rollback(t, a.fate.drawnIds, a.fate.drawnRows) == Rollback(t, a.fate.drawnIds, a.fate.drawnRows);
    }
  }

  lemma RollbackKeepsRep(t: Tables, v: View, drawnIds: nat, drawnRows: nat)
    requires Rep(t, v)
    ensures Rep(Rollback(t, drawnIds, drawnRows), v)
  {
    hide WorksRep, PeopleRep, ReviewsRep, ChecksRep;
  }

  lemma MeaningOfOneMore(h: seq<Commit>, c: Commit)
    requires AllComplete(h) && Complete(c)
    ensures AllComplete(h + [c]) && Meaning(h + [c]) == Apply(Meaning(h), c)
  {
    assert (h + [c])[..|h|] == h;
  }

  lemma MarkedOneMore(ds: map<DeliveryKey, string>, h: seq<Commit>, c: Commit)
    requires MarkedExactly(ds, h)
    ensures MarkedExactly(ApplyMark(ds, c), h + [c])
  {
    var h', ds' := h + [c], ApplyMark(ds, c);
    forall k | k in ds'
      ensures exists i :: 0 <= i < |h'| && DeliveryKey(h'[i].tenant, h'[i].deliveryId) == k
    {
      if k in ds {
        var i :| 0 <= i < |h| && DeliveryKey(h[i].tenant, h[i].deliveryId) == k;
        assert h'[i] == h[i];
      } else {
        assert h'[|h|] == c;
      }
    }
  }

  lemma FreshDoesNotRepeat(ds: map<DeliveryKey, string>, h: seq<Commit>, c: Commit)
    requires MarkedExactly(ds, h) && NoRepeats(h)
    requires c.deliveryId == "" || DeliveryKey(c.tenant, c.deliveryId) !in ds
    ensures NoRepeats(h + [c])
  {
  }

  lemma CommitKeepsInv(s: State, c: Commit, now: Time)
    requires Inv(s) && Complete(c) && Fresh(s.tables, c.tenant, c.deliveryId) && Effect(s.tables, c, now).Ok?
    ensures Inv(State(Effect(s.tables, c, now).value, s.history + [c]))
  {
    hide Complete, Effect, WorksRep, PeopleRep, ReviewsRep, ChecksRep, OutboxRep, DrawnBelow, MarkedExactly, NoRepeats;
    EffectRealizesApply(s.tables, Meaning(s.history), c, now);
    MeaningOfOneMore(s.history, c);
    MarkedOneMore(s.tables.deliveries, s.history, c);
    FreshDoesNotRepeat(s.tables.deliveries, s.history, c);
  }

  lemma StepKeepsInv(installs: Installs, s: State, a: Attempt)
    requires Inv(s)
    ensures Inv(Step(installs, s, a))
  {
    hide Rep, Process, Effect, Complete, MarkedExactly;
    ProcessCases(installs, s.tables, a);
    var o := Process(installs, s.tables, a);
    if o.commit.None? {
      var i: nat, r: nat :| o.tables == Rollback(s.tables, i, r);
      RollbackKeepsRep(s.tables, Meaning(s.history), i, r);
    } else {
      RequestsAreComplete(installs, a.msg);
      CommitKeepsInv(s, o.commit.value, a.now);
    }
  }

  lemma {:induction false} RunKeepsInv(installs: Installs, run: seq<Attempt>)
    ensures Inv(Run(installs, run))
  {
    hide Inv, Step;
    if run == [] {
      InitInv();
    } else {
      RunKeepsInv(installs, run[..|run| - 1]);
      StepKeepsInv(installs, Run(installs, run[..|run| - 1]), run[|run| - 1]);
    }
  }

  // ---- exactly-once effect ----

  /** Whatever the run, the tables are, up to generated values, the result of applying each
      committed delivery once, in commit order, and no non-empty delivery id commits twice. */
  lemma ExactlyOnceEffect(installs: Installs, run: seq<Attempt>)
    ensures var s := Run(installs, run);
            && AllComplete(s.history)
            && Rep(s.tables, Meaning(s.history))
            && NoRepeats(s.history)
  {
    hide Rep, Complete, NoRepeats, MarkedExactly;
    RunKeepsInv(installs, run);
  }

  ghost predicate Requested(installs: Installs, run: seq<Attempt>, c: Commit) {
    exists i :: 0 <= i < |run| && Request(installs, run[i].msg) == Some(c)
  }

  /** Nothing is committed that no message asked for. */
  lemma {:induction false} CommitsWereRequested(installs: Installs, run: seq<Attempt>, j: nat)
    requires j < |Run(installs, run).history|
    ensures Requested(installs, run, Run(installs, run).history[j])
    decreases |run|
  {
    hide Process, Request;
    var before, last := run[..|run| - 1], run[|run| - 1];
    var s := Run(installs, before);
    ProcessCases(installs, s.tables, last);
    var c := Run(installs, run).history[j];
    if j < |s.history| {
      CommitsWereRequested(installs, before, j);
      var i :| 0 <= i < |before| && Request(installs, before[i].msg) == Some(c);
      assert run[i] == before[i];
    } else {
      assert Request(installs, run[|run| - 1].msg) == Some(c);
    }
  }

  /** An attempt that process acknowledges leaves its message's request accounted for. */
  lemma AcknowledgedIsAccounted(installs: Installs, s: State, a: Attempt)
    requires Inv(s) && Request(installs, a.msg).Some? && Process(installs, s.tables, a).reply.Done?
    ensures Accounted(Step(installs, s, a).history, Request(installs, a.msg).value)
  {
    hide Rep, Complete, Effect, Normalize, NoRepeats;
    var c, s' := Request(installs, a.msg).value, Step(installs, s, a);
    if Fresh(s.tables, c.tenant, c.deliveryId) {
      assert s'.history[|s.history|] == c;
    } else {
      var i :| 0 <= i < |s.history| && DeliveryKey(s.history[i].tenant, s.history[i].deliveryId)
                                       == DeliveryKey(c.tenant, c.deliveryId);
      assert s'.history[i] == s.history[i];
    }
  }

  lemma HistoryGrows(installs: Installs, s: State, a: Attempt)
    ensures s.history <= Step(installs, s, a).history
  {
    hide Process;
  }

  lemma AccountedForGood(h: seq<Commit>, h': seq<Commit>, c: Commit)
    requires h <= h' && Accounted(h, c)
    ensures Accounted(h', c)
  {
    var i :| 0 <= i < |h| && h[i].tenant == c.tenant && h[i].deliveryId == c.deliveryId
             && (c.deliveryId == "" ==> h[i] == c);
    assert h'[i] == h[i];
  }

  /** No acknowledged message is lost: at the end of the run its request is still accounted for. */
  lemma {:induction false} AcknowledgedNeverLost(installs: Installs, run: seq<Attempt>, i: nat)
    requires i < |run| && Request(installs, run[i].msg).Some?
    requires Process(installs, Run(installs, run[..i]).tables, run[i]).reply.Done?
    ensures Accounted(Run(installs, run).history, Request(installs, run[i].msg).value)
    decreases |run|
  {
    hide Inv, Step, Request, Process, Accounted;
    var before, last := run[..|run| - 1], run[|run| - 1];
    var s := Run(installs, before);
    if i == |before| {
      RunKeepsInv(installs, before);
      AcknowledgedIsAccounted(installs, s, last);
    } else {
      assert before[..i] == run[..i];
      AcknowledgedNeverLost(installs, before, i);
      HistoryGrows(installs, s, last);
      AccountedForGood(s.history, Run(installs, run).history, Request(installs, run[i].msg).value);
    }
  }

  /** An attempt whose message is bad leaves every table as it was. */
  lemma PermanentLeavesNoRow(installs: Installs, t: Tables, a: Attempt)
    requires Process(installs, t, a).reply.Permanent?
    ensures Process(installs, t, a) == Outcome(t, Permanent, None) && Normalize(Raw(a.msg)).Err?
  {
    hide Normalize, Effect, Complete, Fresh;
    if Normalize(Raw(a.msg)).Ok? {
      RequestsAreComplete(installs, a.msg);
      PersistNeverFails(t, Request(installs, a.msg).value, a.now);
    }
  }

  /** On a complete result persist has no permanent error, whatever the tables hold. */
  lemma {:induction false} ReviewsNeverFail(t: Tables, tenant: Tenant, reviews: seq<Review>, ids: NodeIds,
      keys: map<string, WorkKey>)
    requires ids.Keys == keys.Keys && ParentsIn(keys, reviews)
    ensures PersistReviews(t, tenant, reviews, ids).Ok?
    decreases |reviews|
  {
    hide PersistReview;
    if reviews != [] {
      ReviewsNeverFail(PersistReview(t, tenant, reviews[0], ids[reviews[0].prNodeId]), tenant, reviews[1..], ids, keys);
    }
  }

  lemma {:induction false} NodesOfWorks(t: Tables, tenant: Tenant, items: seq<WorkItem>, ids: NodeIds, now: Time)
    ensures PersistWorks(t, tenant, items, ids, now).1.Keys == ids.Keys + NodeKeys(tenant, items).Keys
    decreases |items|
  {
    hide PersistWork;
    if items != [] {
      var t' := PersistWork(t, tenant, items[0], now);
      NodesOfWorks(t', tenant, items[1..], ids[items[0].nodeId := t'.works[KeyOf(tenant, items[0])].id], now);
    }
  }

  lemma PersistNeverFails(t: Tables, c: Commit, now: Time)
    requires Complete(c)
    ensures Effect(t, c, now).Ok?
  {
    hide PersistReviews, PersistWorks, ParentsIn;
    var t1 := MarkDelivery(t, c.tenant, c.deliveryId, c.eventType);
    NodesOfWorks(t1, c.tenant, c.content.workItems, map[], now);
    var works := PersistWorks(t1, c.tenant, c.content.workItems, map[], now);
    var keys := NodeKeys(c.tenant, c.content.workItems);
    assert works.1.Keys == keys.Keys;
    ReviewsNeverFail(works.0, c.tenant, c.content.reviews, works.1, keys);
  }

  // ---- what is asked, and what is answered ----

  /** A message asks for something exactly if it normalizes, is not skipped and comes from a known
      installation; then it asks for its delivery to be applied to that installation's tenant. */
  lemma RequestIsExact(installs: Installs, msg: Message)
    ensures var r := Normalize(Raw(msg));
            && (Request(installs, msg).Some? <==> r.Ok? && !r.value.skip && r.value.installation in installs)
            && (Request(installs, msg).Some? ==>
                  Request(installs, msg).value
                  == Commit(installs[r.value.installation], HeaderText(msg.headers, "x-github-delivery"),
                            HeaderText(msg.headers, "x-github-event"), r.value))
  {
    if Normalize(Raw(msg)).Ok? {
      SkippedIffEmpty(Raw(msg));
    }
    hide Normalize;
  }

  /** A delivery under this id is among the committed ones. */
  ghost predicate IsCommitted(h: seq<Commit>, tenant: Tenant, deliveryId: string) {
    exists i :: 0 <= i < |h| && h[i].tenant == tenant && h[i].deliveryId == deliveryId
  }

  lemma FreshIff(s: State, tenant: Tenant, deliveryId: string)
    requires MarkedExactly(s.tables.deliveries, s.history)
    ensures Fresh(s.tables, tenant, deliveryId)
       <==> deliveryId == "" || !IsCommitted(s.history, tenant, deliveryId)
  {
    if deliveryId != "" && DeliveryKey(tenant, deliveryId) in s.tables.deliveries {
      var i :| 0 <= i < |s.history|
               && DeliveryKey(s.history[i].tenant, s.history[i].deliveryId) == DeliveryKey(tenant, deliveryId);
      assert IsCommitted(s.history, tenant, deliveryId);
    }
  }

  lemma RepliesToRequests(t: Tables, c: Commit, a: Attempt)
    requires Complete(c)
    ensures var reply := Transact(t, c, a).reply;
            && !reply.Permanent?
            && (a.fate.Commits? ==> reply.Done?) && (a.fate.Aborts? ==> reply.Transient?)
            && (a.fate.CommitsUnreported? ==> (reply.Done? <==> !Fresh(t, c.tenant, c.deliveryId)))
  {
    PersistNeverFails(t, c, a.now);
    hide Effect, Fresh, Complete;
  }

  /** Nothing is left to do for this message: its commit is reported, or happened before. */
  ghost predicate IsOver(h: seq<Commit>, tenant: Tenant, a: Attempt) {
    var id := HeaderText(a.msg.headers, "x-github-delivery");
    a.fate.Commits? || (a.fate.CommitsUnreported? && id != "" && IsCommitted(h, tenant, id))
  }

  /** What process answers in any reachable state: a permanent error exactly to a message that does
      not normalize; nil exactly to one that is skipped or, once its installation was looked up, is of
      an unknown one, is told that its commit happened, or repeats a committed delivery. All else
      is transient. */
  lemma RepliesAreExact(installs: Installs, run: seq<Attempt>, a: Attempt)
    ensures var h, r := Run(installs, run).history, Normalize(Raw(a.msg));
            var reply := Process(installs, Run(installs, run).tables, a).reply;
            && (reply.Permanent? <==> r.Err?)
            && (r.Ok? && r.value.skip ==> reply.Done?)
            && (r.Ok? && !r.value.skip && a.fate.LookupFails? ==> reply.Transient?)
            && (r.Ok? && !r.value.skip && !a.fate.LookupFails? ==>
                  if r.value.installation !in installs then reply.Done?
                  else if IsOver(h, installs[r.value.installation], a) then reply.Done? else reply.Transient?)
  {
    var s := Run(installs, run);
    RunKeepsInv(installs, run);
    RequestIsExact(installs, a.msg);
    RequestsAreComplete(installs, a.msg);
    if Normalize(Raw(a.msg)).Ok? {
      SkippedIffEmpty(Raw(a.msg));
    }
    hide Normalize, Complete, Rep, Run, NoRepeats, MarkedExactly, IsCommitted, Fresh, Transact;
    if Request(installs, a.msg).Some? {
      var c := Request(installs, a.msg).value;
      RepliesToRequests(s.tables, c, a);
      FreshIff(s, c.tenant, c.deliveryId);
    }
  }

  // ---- re-emissions by the connector ----

  /** However many differently enriched copies of one delivery reach the normalizer, at most
      one of them commits, and unless the webhook's own block is harmful it means what the webhook
      means outside the enriched fields. */
  lemma ReEmissionsCommitOnce(installs: Installs, run: seq<Attempt>, msg: Message, a: Message, b: Message, i: nat,
      j: nat)
    requires Enrichment.EmissionOf(msg, a) && Enrichment.EmissionOf(msg, b) && Raw(msg).deliveryId != ""
    requires var h := Run(installs, run).history;
             i <= j < |h| && Request(installs, a) == Some(h[i]) && Request(installs, b) == Some(h[j])
    ensures i == j
    ensures Enrichment.BlockHarmless(msg) ==>
              Enrichment.Strip(Ok(Run(installs, run).history[i].content)) == Enrichment.Strip(Normalize(Raw(msg)))
  {
    hide Rep, Complete, Normalize, Enrichment.Enrich, Enrichment.BlockHarmless;
    ExactlyOnceEffect(installs, run);
    Enrichment.ReEmissionsAgree(msg, a, b);
    if !Enrichment.BlockHarmless(msg) && a.body == msg.body && b.body != msg.body {
      Enrichment.HarmfulIsBad(msg, a, b);
    }
    if !Enrichment.BlockHarmless(msg) && b.body == msg.body && a.body != msg.body {
      Enrichment.HarmfulIsBad(msg, b, a);
    }
    var w :| Enrichment.Emits(msg, w, a);
    Enrichment.EmissionNormalizesAlike(msg, w, a);
    SameTarget(installs, a, b);
  }

  lemma SameTarget(installs: Installs, a: Message, b: Message)
    requires Request(installs, a).Some? && Request(installs, b).Some?
    requires Enrichment.Strip(Normalize(Raw(a))) == Enrichment.Strip(Normalize(Raw(b)))
    ensures Request(installs, a).value.tenant == Request(installs, b).value.tenant
  {
    hide Normalize;
  }

  // ---- generated ids ----

  lemma StepKeepsIds(installs: Installs, s: State, a: Attempt)
    requires Inv(s)
    ensures KeepsIds(s.tables, Step(installs, s, a).tables)
  {
    hide Process, Effect, KeepsIds, Complete, MarkedExactly, NoRepeats, Isolation.OthersUntouched,
         WorksRep, PeopleRep, ReviewsRep, ChecksRep, OutboxRep;
    ProcessCases(installs, s.tables, a);
    var o := Process(installs, s.tables, a);
    if o.commit.None? {
      RollbackKeepsIds(s.tables, o.tables);
    } else {
      Isolation.EffectConfined(s.tables, o.commit.value, a.now);
    }
  }

  lemma RollbackKeepsIds(t: Tables, t': Tables)
    requires exists i: nat, r: nat :: t' == Rollback(t, i, r)
    ensures KeepsIds(t, t')
  {
    KeepsIdsReflexive(t);
  }

  /** The id of a work item, a review, a check or an identity link, once drawn, is its id in
      every later state of every run. */
  lemma {:induction false} IdsNeverChange(installs: Installs, run: seq<Attempt>, n: nat)
    requires n <= |run|
    ensures KeepsIds(Run(installs, run[..n]).tables, Run(installs, run).tables)
    decreases |run|
  {
    hide Step, Inv, KeepsIds;
    if n == |run| {
      assert run[..n] == run;
      KeepsIdsReflexive(Run(installs, run).tables);
    } else {
      var before := run[..|run| - 1];
      assert before[..n] == run[..n];
      IdsNeverChange(installs, before, n);
      RunKeepsInv(installs, before);
      StepKeepsIds(installs, Run(installs, before), run[|run| - 1]);
      KeepsIdsTransitive(Run(installs, run[..n]).tables, Run(installs, before).tables, Run(installs, run).tables);
    }
  }
}
