/**
  Referential integrity without foreign keys: in every reachable state each
  review names an existing PR row and an existing contributor of its tenant.
 */
module Integrity {
  import opened Prelude
  import opened Connector
  import opened GitHubSource
  import opened Kafka
  import opened Schema
  import opened Views
  import opened Delivery

  /** The committed delivery carried this review, of this PR, by this login. */
  ghost predicate Explains(c: Commit, k: SourceKey, rv: ReviewView) {
    exists r :: r in c.content.reviews && ExplainedBy(c.tenant, r, k, rv)
  }

  ghost predicate ExplainedBy(tenant: Tenant, r: Review, k: SourceKey, rv: ReviewView) {
    && k == SourceKey(tenant, r.sourceId) && r.reviewerLogin != ""
    && rv.work.node == r.prNodeId && rv.reviewer == Sha256(r.reviewerLogin)
  }

  ghost predicate Sound(h: seq<Commit>, v: View) {
    forall k :: k in v.reviews ==>
      && v.reviews[k].work in v.works && v.reviews[k].work.tenant == k.tenant && v.reviews[k].work.kind == "pr"
      && exists i :: 0 <= i < |h| && Explains(h[i], k, v.reviews[k])
  }

  lemma {:induction false} WorksOnlyGrow(ws: Works, tenant: Tenant, items: seq<WorkItem>)
    ensures ws.Keys <= ApplyWorks(ws, tenant, items).Keys
    decreases |items|
  {
    if items != [] {
      WorksOnlyGrow(ApplyWork(ws, tenant, items[0]), tenant, items[1..]);
    }
  }

  /** A node id of the delivery stands for one of its own items, which the delivery stores. */
  lemma {:induction false} NodeKeysAreStored(ws: Works, tenant: Tenant, items: seq<WorkItem>, node: string)
    requires node in NodeKeys(tenant, items)
    ensures var key := NodeKeys(tenant, items)[node];
            && key.node == node && key.tenant == tenant && key in ApplyWorks(ws, tenant, items)
            && exists wi :: wi in items && key == KeyOf(tenant, wi)
    decreases |items|
  {
    var ws1 := ApplyWork(ws, tenant, items[0]);
    if node in NodeKeys(tenant, items[1..]) {
      NodeKeysAreStored(ws1, tenant, items[1..], node);
    } else {
      WorksOnlyGrow(ws1, tenant, items[1..]);
      assert KeyOf(tenant, items[0]) in ws1;
    }
  }

  ghost predicate StoredPr(ws: Works, tenant: Tenant, node: string, key: WorkKey) {
    key in ws && key.tenant == tenant && key.kind == "pr" && key.node == node
  }

  ghost predicate GoodParents(ws: Works, tenant: Tenant, reviews: seq<Review>, keys: map<string, WorkKey>) {
    forall r :: r in reviews && r.prNodeId in keys ==> StoredPr(ws, tenant, r.prNodeId, keys[r.prNodeId])
  }

  lemma ParentsAreGood(ws: Works, c: Commit)
    requires WellFormed(c.content) && c.content.reviews != []
    ensures GoodParents(ApplyWorks(ws, c.tenant, c.content.workItems), c.tenant, c.content.reviews,
                        NodeKeys(c.tenant, c.content.workItems))
  {
    hide ApplyWorks;
    forall r | r in c.content.reviews && r.prNodeId in NodeKeys(c.tenant, c.content.workItems)
      ensures StoredPr(ApplyWorks(ws, c.tenant, c.content.workItems), c.tenant, r.prNodeId,
                       NodeKeys(c.tenant, c.content.workItems)[r.prNodeId])
    {
      NodeKeysAreStored(ws, c.tenant, c.content.workItems, r.prNodeId);
    }
  }

  /** Every row a delivery leaves behind was there before, on the same PR by the same
      reviewer, or comes from one of its own reviews. */
  lemma {:induction false} ReviewOrigin(
      rs: Reviews, ws: Works, tenant: Tenant, reviews: seq<Review>, keys: map<string, WorkKey>, k: SourceKey)
    requires ParentsIn(keys, reviews) && GoodParents(ws, tenant, reviews, keys)
    requires k in ApplyReviews(rs, tenant, reviews, keys)
    ensures var rv := ApplyReviews(rs, tenant, reviews, keys)[k];
            || (k in rs && rs[k].work == rv.work && rs[k].reviewer == rv.reviewer)
            || (StoredPr(ws, tenant, rv.work.node, rv.work)
                && exists r :: r in reviews && ExplainedBy(tenant, r, k, rv))
    decreases |reviews|
  {
    if reviews != [] {
      var rs1 := ApplyReview(rs, tenant, reviews[0], keys[reviews[0].prNodeId]);
      ReviewOrigin(rs1, ws, tenant, reviews[1..], keys, k);
      var rv := ApplyReviews(rs1, tenant, reviews[1..], keys)[k];
      if k in rs1 && rs1[k].work == rv.work && rs1[k].reviewer == rv.reviewer && k !in rs {
        assert ExplainedBy(tenant, reviews[0], k, rv);
        assert StoredPr(ws, tenant, reviews[0].prNodeId, keys[reviews[0].prNodeId]);
      }
    }
  }

  lemma ExplainedForGood(h: seq<Commit>, c: Commit, i: nat, k: SourceKey, was: ReviewView, rv: ReviewView)
    requires i < |h| && Explains(h[i], k, was) && was.work == rv.work && was.reviewer == rv.reviewer
    ensures (h + [c])[i] == h[i] && Explains((h + [c])[i], k, rv)
  {
    var r :| r in h[i].content.reviews && ExplainedBy(h[i].tenant, r, k, was);
    assert ExplainedBy(h[i].tenant, r, k, rv);
  }

  lemma ApplyKeepsSound(h: seq<Commit>, v: View, c: Commit)
    requires Sound(h, v) && Complete(c) && WellFormed(c.content)
    ensures Sound(h + [c], Apply(v, c))
  {
    hide ApplyWorks, ApplyReviews, ApplyChecks, ApplyPeople, ApplyMark, EventsOf, NodeKeys, WellFormed, Explains,
        ParentsIn;
    var v', h' := Apply(v, c), h + [c];
    var keys := NodeKeys(c.tenant, c.content.workItems);
    WorksOnlyGrow(v.works, c.tenant, c.content.workItems);
    forall k | k in v'.reviews
      ensures StoredPr(v'.works, k.tenant, v'.reviews[k].work.node, v'.reviews[k].work)
      ensures exists i :: 0 <= i < |h'| && Explains(h'[i], k, v'.reviews[k])
    {
      var rv := v'.reviews[k];
      if c.content.reviews == [] {
        NoReviews(v.reviews, c.tenant, keys);
      } else {
        ParentsAreGood(v.works, c);
        ReviewOrigin(v.reviews, v'.works, c.tenant, c.content.reviews, keys, k);
      }
      if k in v.reviews && v.reviews[k].work == rv.work && v.reviews[k].reviewer == rv.reviewer {
        var i :| 0 <= i < |h| && Explains(h[i], k, v.reviews[k]);
        ExplainedForGood(h, c, i, k, v.reviews[k], rv);
      } else {
        ExplainedByLast(h, c, k, rv);
      }
    }
  }

  lemma NoReviews(rs: Reviews, tenant: Tenant, keys: map<string, WorkKey>)
    ensures ParentsIn(keys, []) && ApplyReviews(rs, tenant, [], keys) == rs
  {
  }

  lemma ExplainedByLast(h: seq<Commit>, c: Commit, k: SourceKey, rv: ReviewView)
    requires exists r :: r in c.content.reviews && ExplainedBy(c.tenant, r, k, rv)
    ensures (h + [c])[|h|] == c && Explains((h + [c])[|h|], k, rv) && k.tenant == c.tenant
  {
  }

  ghost predicate AllWellFormed(h: seq<Commit>) {
    forall i :: 0 <= i < |h| ==> WellFormed(h[i].content)
  }

  lemma RunIsWellFormed(installs: Installs, run: seq<Attempt>)
    ensures AllWellFormed(Run(installs, run).history)
  {
    hide WellFormed, Normalize, Run;
    var h := Run(installs, run).history;
    forall j | 0 <= j < |h| ensures WellFormed(h[j].content) {
      CommitsWereRequested(installs, run, j);
      var i :| 0 <= i < |run| && Request(installs, run[i].msg) == Some(h[j]);
      ResultsAreWellFormed(Raw(run[i].msg));
    }
  }

  lemma {:induction false} MeaningIsSound(h: seq<Commit>)
    requires AllComplete(h) && AllWellFormed(h)
    ensures Sound(h, Meaning(h))
  {
    hide WellFormed, Complete, Apply;
    if h != [] {
      var before, c := h[..|h| - 1], h[|h| - 1];
      hide Sound;
      MeaningIsSound(before);
      ApplyKeepsSound(before, Meaning(before), c);
      assert before + [c] == h;
    }
  }

  /** The work item a review points to is a PR of its tenant with the node id its delivery named. */
  ghost predicate PointsToPr(t: Tables, h: seq<Commit>, k: SourceKey, w: WorkKey)
    requires k in t.reviews && w in t.works
  {
    && t.works[w].id == t.reviews[k].workItemId
    && w.tenant == k.tenant && w.kind == "pr"
    && exists i, r :: 0 <= i < |h| && r in h[i].content.reviews
                      && SourceKey(h[i].tenant, r.sourceId) == k && r.prNodeId == w.node
  }

  lemma WorkIdsAreUnique(t: Tables, v: View)
    requires Rep(t, v)
    ensures forall j, k :: j in t.works && k in t.works && t.works[j].id == t.works[k].id ==> j == k
  {
  }

  lemma ReviewersExist(t: Tables, v: View, k: SourceKey)
    requires Rep(t, v) && k in t.reviews
    ensures t.reviews[k].reviewerId in t.contributors && t.contributors[t.reviews[k].reviewerId].tenant == k.tenant
  {
    hide WorksRep, ChecksRep, OutboxRep, DrawnBelow;
  }

  /** In every reachable state each review points to exactly one work item, a PR of its own
      tenant that its delivery named, and to an existing contributor of its own tenant. */
  lemma ReferentialIntegrity(installs: Installs, run: seq<Attempt>, k: SourceKey)
    requires k in Run(installs, run).tables.reviews
    ensures var s := Run(installs, run);
            var row := s.tables.reviews[k];
            && (exists w :: w in s.tables.works && PointsToPr(s.tables, s.history, k, w))
            && (forall w, w' :: w in s.tables.works && w' in s.tables.works
                                && s.tables.works[w].id == row.workItemId && s.tables.works[w'].id == row.workItemId
                                ==> w == w')
            && row.reviewerId in s.tables.contributors
            && s.tables.contributors[row.reviewerId].tenant == k.tenant
  {
    hide Run, Rep, WellFormed, Complete, Meaning, AllWellFormed, NoRepeats;
    var s := Run(installs, run);
    ExactlyOnceEffect(installs, run);
    RunIsWellFormed(installs, run);
    MeaningIsSound(s.history);
    SameReview(s.tables, Meaning(s.history), k);
    WorkIdsAreUnique(s.tables, Meaning(s.history));
    ReviewersExist(s.tables, Meaning(s.history), k);
    var rv := Meaning(s.history).reviews[k];
    var i :| 0 <= i < |s.history| && Explains(s.history[i], k, rv);
    var r :| r in s.history[i].content.reviews && ExplainedBy(s.history[i].tenant, r, k, rv);
    assert PointsToPr(s.tables, s.history, k, rv.work);
  }
}
