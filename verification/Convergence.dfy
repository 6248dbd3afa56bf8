/**
  Out-of-order delivery: one PR webhook and any number of review webhooks on the
  same PR leave the same rows and the same events, in whatever order they commit.
 */
module Convergence {
  import opened Prelude
  import opened Connector
  import opened Json
  import opened GitHubSource
  import opened Schema
  import opened Views
  import opened Delivery

  // ---- the family of deliveries ----

  predicate IsPr(c: Commit) {
    var n := c.content;
    |n.workItems| == 1 && !n.workItems[0].event.NoEvent? && n.reviews == [] && n.checkRuns == [] && n.comments == []
  }

  predicate IsReview(c: Commit) {
    var n := c.content;
    && |n.workItems| == 1 && n.workItems[0].event.NoEvent?
    && |n.reviews| == 1 && n.reviews[0].prNodeId == n.workItems[0].nodeId
    && n.checkRuns == [] && n.comments == []
  }

  function KeyIn(c: Commit): WorkKey
    requires IsPr(c) || IsReview(c)
  {
    KeyOf(c.tenant, c.content.workItems[0])
  }

  function ColsIn(c: Commit): WorkCols
    requires IsPr(c) || IsReview(c)
  {
    Columns(c.content.workItems[0])
  }

  /** The columns an upsert does not overwrite. */
  predicate Agree(a: WorkCols, b: WorkCols) {
    a.number == b.number && a.author == b.author && a.createdAt == b.createdAt
  }

  function ReviewKeyIn(c: Commit): SourceKey
    requires IsReview(c)
  {
    SourceKey(c.tenant, c.content.reviews[0].sourceId)
  }

  /** c is about the PR that p is about, as p describes it. */
  predicate OnSamePr(p: Commit, c: Commit)
    requires IsPr(p)
  {
    (c == p || IsReview(c)) && KeyIn(c) == KeyIn(p) && c.tenant == p.tenant && Agree(ColsIn(c), ColsIn(p))
  }

  /** Reviews of one PR, with p among them or still to come; distinct reviews, distinct deliveries. */
  ghost predicate Family(p: Commit, h: seq<Commit>) {
    && IsPr(p)
    && (forall i :: 0 <= i < |h| ==> OnSamePr(p, h[i]) && h[i].deliveryId != "")
    && (forall i, j :: 0 <= i < j < |h| ==> h[i].deliveryId != h[j].deliveryId)
    && (forall i, j :: 0 <= i < j < |h| && IsReview(h[i]) && IsReview(h[j]) ==> ReviewKeyIn(h[i]) != ReviewKeyIn(h[j]))
  }

  /** The webhooks do produce these shapes. */
  lemma WebhookShapes(raw: RawEvent, tenant: Tenant)
    requires Normalize(raw).Ok? && !Normalize(raw).value.skip
    ensures var c := Commit(tenant, raw.deliveryId, raw.eventType, Normalize(raw).value);
            && (raw.eventType == "pull_request" ==> IsPr(c))
            && (raw.eventType == "pull_request_review" ==> IsReview(c))
  {
    hide DecodePrPayload, DecodeEnrichment, DecodePullRequest, ApplyEnrichment, NormalizeStatus, NormalizeCheckRun,
         NormalizePush, NormalizeIssue, NormalizeIssueComment, NormalizeReviewComment;
  }

  /** The members the two payloads of one PR have in common. */
  predicate SamePullRequest(f: Fields, g: Fields) {
    Get(f, "pull_request") == Get(g, "pull_request") && Get(f, "repository") == Get(g, "repository")
  }

  /** A PR webhook and a review webhook carrying the same pull_request and repository objects are
      about one work item, and agree on it as the theorems below ask, exactly when the object has
      its number or the PR webhook has none to put in its place. Enrichment does not matter. */
  lemma PayloadsAgreeIffNumbered(f: Fields, g: Fields, p: Commit, c: Commit)
    requires SamePullRequest(f, g) && p.tenant == c.tenant
    requires NormalizePullRequest(f) == Ok(p.content)
    requires NormalizeReview(g) == Ok(c.content) && !c.content.skip
    ensures IsPr(p) && IsReview(c) && KeyIn(c) == KeyIn(p)
    ensures OnSamePr(p, c)
       <==> DecodePullRequest(Get(f, "pull_request")).value.number != 0 || DecodePrPayload(f).value.number == 0
  {
    hide DecodePullRequest, DecodeEnrichment, ToLower;
    assert RepoName(f) == RepoName(g);
  }

  // ---- what a sequence of deliveries adds to a view ----

  ghost function After(v: View, h: seq<Commit>): View
    requires AllComplete(h)
  {
    if h == [] then v else Apply(After(v, h[..|h| - 1]), h[|h| - 1])
  }

  lemma FamilyIsComplete(p: Commit, h: seq<Commit>)
    requires Family(p, h)
    ensures AllComplete(h)
  {
    forall i | 0 <= i < |h| ensures Complete(h[i]) {
      assert OnSamePr(p, h[i]);
      if IsReview(h[i]) {
        var n := h[i].content;
        assert n.reviews[1..] == [];
      }
    }
  }

  /** One delivery of the family, column by column. */
  lemma ApplyInFamily(v: View, c: Commit)
    requires (IsPr(c) || IsReview(c)) && Complete(c)
    ensures var v' := Apply(v, c);
            && v'.works == ApplyWork(v.works, c.tenant, c.content.workItems[0])
            && v'.checks == v.checks
            && v'.deliveries == ApplyMark(v.deliveries, c)
            && v'.events == v.events + EventsOf(c.tenant, c.content)
            && v'.people == (if IsPr(c) then v.people else ApplyPerson(v.people, c.tenant, c.content.reviews[0]))
            && v'.reviews == (if IsPr(c) then v.reviews
                              else ApplyReview(v.reviews, c.tenant, c.content.reviews[0], KeyIn(c)))
  {
    hide EventsOf, ApplyWorks, ApplyReviews, ApplyPeople, ApplyWork, ApplyReview, ApplyPerson;
    var n, keys := c.content, NodeKeys(c.tenant, c.content.workItems);
    OneWork(v.works, c.tenant, n.workItems);
    if IsReview(c) {
      OneReview(v.reviews, v.people, c.tenant, n.reviews, keys);
      assert keys[n.workItems[0].nodeId] == KeyIn(c);
    } else {
      NoReview(v.reviews, v.people, c.tenant, keys);
    }
  }

  lemma OneWork(ws: Works, tenant: Tenant, items: seq<WorkItem>)
    requires |items| == 1
    ensures ApplyWorks(ws, tenant, items) == ApplyWork(ws, tenant, items[0])
    ensures NodeKeys(tenant, items) == map[items[0].nodeId := KeyOf(tenant, items[0])]
  {
    assert items[1..] == [];
  }

  lemma OneReview(rs: Reviews, ps: People, tenant: Tenant, reviews: seq<Review>, keys: map<string, WorkKey>)
    requires |reviews| == 1 && ParentsIn(keys, reviews)
    ensures ApplyReviews(rs, tenant, reviews, keys) == ApplyReview(rs, tenant, reviews[0], keys[reviews[0].prNodeId])
    ensures ApplyPeople(ps, tenant, reviews) == ApplyPerson(ps, tenant, reviews[0])
  {
    assert reviews[1..] == [];
  }

  lemma NoReview(rs: Reviews, ps: People, tenant: Tenant, keys: map<string, WorkKey>)
    ensures ParentsIn(keys, []) && ApplyReviews(rs, tenant, [], keys) == rs && ApplyPeople(ps, tenant, []) == ps
  {
  }

  // ---- the work item ----

  /** The PR's row once its own webhook has been processed. */
  function PrRow(ws: Works, p: Commit): WorkCols
    requires IsPr(p)
  {
    if KeyIn(p) in ws then Refreshed(ws[KeyIn(p)], ColsIn(p)) else ColsIn(p)
  }

  lemma {:induction false} WorksBeforePr(v: View, p: Commit, h: seq<Commit>)
    requires Family(p, h) && AllComplete(h) && p !in h
    ensures var ws := After(v, h).works;
            && (KeyIn(p) in v.works ==> ws == v.works)
            && (KeyIn(p) !in v.works ==> 
                  ws == v.works || exists cols :: ws == v.works[KeyIn(p) := cols] && Agree(cols, ColsIn(p)))
  {
    if h != [] {
      var before, c := h[..|h| - 1], h[|h| - 1];
      FamilyShrinks(p, h);
      hide After, Apply, Family;
      assert After(v, h) == Apply(After(v, before), c) by { OneMore(v, h); }
      WorksBeforePr(v, p, before);
      ApplyInFamily(After(v, before), c);
    }
  }

  lemma FamilyShrinks(p: Commit, h: seq<Commit>)
    requires Family(p, h) && AllComplete(h) && h != []
    ensures Family(p, h[..|h| - 1]) && AllComplete(h[..|h| - 1]) && OnSamePr(p, h[|h| - 1]) && Complete(h[|h| - 1])
    ensures h[|h| - 1] in h && (forall c :: c in h[..|h| - 1] ==> c in h)
    ensures forall c :: c in h ==> c in h[..|h| - 1] || c == h[|h| - 1]
  {
    hide Complete, OnSamePr;
  }

  lemma OneMore(v: View, h: seq<Commit>)
    requires AllComplete(h) && h != []
    ensures AllComplete(h[..|h| - 1]) && After(v, h) == Apply(After(v, h[..|h| - 1]), h[|h| - 1])
  {
    hide Complete, Apply;
  }

  lemma {:induction false} WorksConverge(v: View, p: Commit, h: seq<Commit>)
    requires Family(p, h) && AllComplete(h) && p in h
    ensures After(v, h).works == v.works[KeyIn(p) := PrRow(v.works, p)]
  {
    var before, c := h[..|h| - 1], h[|h| - 1];
    FamilyShrinks(p, h);
    OneMore(v, h);
    ApplyInFamily(After(v, before), c);
    assert p in before ==> c != p by { DistinctFromEarlier(p, h); }
    hide After, Apply, Family, PrRow, OnSamePr, ApplyWork, KeyIn, ColsIn;
    if p in before {
      WorksConverge(v, p, before);
      EnsureIsSilent(v.works, p, c);
    } else {
      WorksBeforePr(v, p, before);
      UpsertDecides(v.works, After(v, before).works, p);
    }
  }

  lemma EnsureIsSilent(ws: Works, p: Commit, c: Commit)
    requires IsPr(p) && OnSamePr(p, c) && c != p
    ensures var ws' := ws[KeyIn(p) := PrRow(ws, p)]; ApplyWork(ws', c.tenant, c.content.workItems[0]) == ws'
  {
    hide PrRow;
  }

  lemma UpsertDecides(ws: Works, mid: Works, p: Commit)
    requires IsPr(p)
    requires KeyIn(p) in ws ==> mid == ws
    requires KeyIn(p) !in ws ==> mid == ws || exists cols :: mid == ws[KeyIn(p) := cols] && Agree(cols, ColsIn(p))
    ensures ApplyWork(mid, p.tenant, p.content.workItems[0]) == ws[KeyIn(p) := PrRow(ws, p)]
  {
  }

  lemma DistinctFromEarlier(p: Commit, h: seq<Commit>)
    requires Family(p, h) && h != []
    ensures h[|h| - 1] !in h[..|h| - 1]
    ensures forall c :: c in h[..|h| - 1] ==> c.deliveryId != h[|h| - 1].deliveryId
    ensures IsReview(h[|h| - 1]) ==>
              forall c :: c in h[..|h| - 1] && IsReview(c) ==> ReviewKeyIn(c) != ReviewKeyIn(h[|h| - 1])
  {
    var before, last := h[..|h| - 1], h[|h| - 1];
    forall c | c in before
      ensures c.deliveryId != last.deliveryId
      ensures IsReview(last) && IsReview(c) ==> ReviewKeyIn(c) != ReviewKeyIn(last)
    {
      var i :| 0 <= i < |before| && before[i] == c;
      assert h[i] == c;
    }
  }

  /** The agreement is needed: a review that comes before its PR's webhook leaves the same work
      item as one that comes after it exactly when the row was there already or the two payloads
      agree on the columns an upsert does not overwrite. */
  lemma EarlyReviewIsHarmlessIffAgreeing(ws: Works, p: Commit, c: Commit)
    requires IsPr(p) && IsReview(c) && KeyIn(c) == KeyIn(p) && c.tenant == p.tenant
    ensures ApplyWork(ApplyWork(ws, c.tenant, c.content.workItems[0]), p.tenant, p.content.workItems[0])
         == ApplyWork(ApplyWork(ws, p.tenant, p.content.workItems[0]), c.tenant, c.content.workItems[0])
       <==> KeyIn(p) in ws || Agree(ColsIn(c), ColsIn(p))
  {
    hide Columns;
    var key := KeyIn(p);
    var early := ApplyWork(ApplyWork(ws, c.tenant, c.content.workItems[0]), p.tenant, p.content.workItems[0]);
    var late := ApplyWork(ApplyWork(ws, p.tenant, p.content.workItems[0]), c.tenant, c.content.workItems[0]);
    if key !in ws {
      assert early == ws[key := Refreshed(ColsIn(c), ColsIn(p))];
      assert late == ws[key := ColsIn(p)];
      assert early[key] == Refreshed(ColsIn(c), ColsIn(p)) && late[key] == ColsIn(p);
    }
  }

  // ---- reviews, people, delivery marks: each row is decided by one delivery ----

  predicate Attributed(c: Commit) {
    IsReview(c) && c.content.reviews[0].reviewerLogin != ""
  }

  function ReviewRowOf(rs: Reviews, c: Commit): ReviewView
    requires IsReview(c)
  {
    var rv, key := c.content.reviews[0], ReviewKeyIn(c);
    var cols := ReviewCols(rv.state, rv.commentCount, rv.submittedAt);
    if key in rs then rs[key].(cols := cols) else ReviewView(KeyIn(c), Sha256(rv.reviewerLogin), cols)
  }

  predicate Writes(c: Commit, k: SourceKey) {
    Attributed(c) && ReviewKeyIn(c) == k
  }

  /** The final reviews, stated without reference to any order. */
  ghost predicate ReviewsSettled(rs: Reviews, h: seq<Commit>, rs': Reviews) {
    && (forall c :: c in h && Attributed(c) ==> ReviewKeyIn(c) in rs' && rs'[ReviewKeyIn(c)] == ReviewRowOf(rs, c))
    && (forall k :: (forall c :: c in h ==> !Writes(c, k)) ==> (k in rs' <==> k in rs) && (k in rs ==> rs'[k] == rs[k]))
  }

  lemma {:induction false} ReviewsConverge(v: View, p: Commit, h: seq<Commit>)
    requires Family(p, h) && AllComplete(h)
    ensures ReviewsSettled(v.reviews, h, After(v, h).reviews)
  {
    if h != [] {
      var before, c := h[..|h| - 1], h[|h| - 1];
      FamilyShrinks(p, h);
      OneMore(v, h);
      ApplyInFamily(After(v, before), c);
      DistinctFromEarlier(p, h);
      hide After, Apply, Family, ReviewsSettled;
      ReviewsConverge(v, p, before);
      ReviewsSettledOneMore(v.reviews, before, After(v, before).reviews, c, h, After(v, h).reviews);
    }
  }

  lemma RowUnaffected(rs: Reviews, before: seq<Commit>, mid: Reviews, c: Commit)
    requires ReviewsSettled(rs, before, mid) && Attributed(c)
    requires forall x :: x in before ==> !Writes(x, ReviewKeyIn(c))
    ensures ReviewRowOf(mid, c) == ReviewRowOf(rs, c)
  {
    hide Writes, KeyIn;
  }

  lemma ReviewWrites(mid: Reviews, c: Commit)
    requires IsPr(c) || IsReview(c)
    ensures (if IsPr(c) then mid else ApplyReview(mid, c.tenant, c.content.reviews[0], KeyIn(c)))
         == if Attributed(c) then mid[ReviewKeyIn(c) := ReviewRowOf(mid, c)] else mid
  {
    hide KeyIn;
  }

  lemma SettledWithOneMore(rs: Reviews, before: seq<Commit>, mid: Reviews, c: Commit, h: seq<Commit>, rs': Reviews)
    requires ReviewsSettled(rs, before, mid)
    requires forall x :: x in h <==> x in before || x == c
    requires Attributed(c) ==> forall x :: x in before ==> !Writes(x, ReviewKeyIn(c))
    requires rs' == if Attributed(c) then mid[ReviewKeyIn(c) := ReviewRowOf(rs, c)] else mid
    ensures ReviewsSettled(rs, h, rs')
  {
    hide ReviewRowOf, IsReview;
    forall x | x in h && Attributed(x)
      ensures ReviewKeyIn(x) in rs' && rs'[ReviewKeyIn(x)] == ReviewRowOf(rs, x)
    {
      assert x != c ==> !Attributed(c) || !Writes(x, ReviewKeyIn(c));
    }
    forall k | forall x :: x in h ==> !Writes(x, k)
      ensures (k in rs' <==> k in rs) && (k in rs ==> rs'[k] == rs[k])
    {
      assert !Writes(c, k);
    }
  }

  lemma ReviewsSettledOneMore(rs: Reviews, before: seq<Commit>, mid: Reviews, c: Commit, h: seq<Commit>, rs': Reviews)
    requires ReviewsSettled(rs, before, mid) && (IsPr(c) || IsReview(c))
    requires forall x :: x in h <==> x in before || x == c
    requires IsReview(c) ==> forall x :: x in before && IsReview(x) ==> ReviewKeyIn(x) != ReviewKeyIn(c)
    requires rs' == if IsPr(c) then mid else ApplyReview(mid, c.tenant, c.content.reviews[0], KeyIn(c))
    ensures ReviewsSettled(rs, h, rs')
  {
    hide ReviewRowOf, ApplyReview, ReviewsSettled;
    ReviewWrites(mid, c);
    if Attributed(c) {
      assert forall x :: x in before ==> !Writes(x, ReviewKeyIn(c));
      RowUnaffected(rs, before, mid, c);
    }
    SettledWithOneMore(rs, before, mid, c, h, rs');
  }

  function PersonKeyIn(c: Commit): PersonKey
    requires IsReview(c)
  {
    LinkKey(c.tenant, c.content.reviews[0].reviewerLogin)
  }

  function PersonOf(key: PersonKey): Person {
    Person(key.hash.login, IsBot(key.hash.login))
  }

  ghost predicate PeopleSettled(ps: People, h: seq<Commit>, ps': People) {
    && (forall c :: c in h && Attributed(c) ==> PersonKeyIn(c) in ps')
    && (forall k :: k in ps ==> k in ps' && ps'[k] == ps[k])
    && (forall k :: k in ps' && k !in ps ==>
          ps'[k] == PersonOf(k) && exists c :: c in h && Attributed(c) && PersonKeyIn(c) == k)
  }

  lemma {:induction false} PeopleConverge(v: View, p: Commit, h: seq<Commit>)
    requires Family(p, h) && AllComplete(h)
    ensures PeopleSettled(v.people, h, After(v, h).people)
  {
    if h != [] {
      var before, c := h[..|h| - 1], h[|h| - 1];
      FamilyShrinks(p, h);
      OneMore(v, h);
      ApplyInFamily(After(v, before), c);
      hide After, Apply, Family, PeopleSettled;
      PeopleConverge(v, p, before);
      PeopleSettledOneMore(v.people, before, After(v, before).people, c, h, After(v, h).people);
    } else {
      assert After(v, h) == v;
    }
  }

  lemma PeopleSettledOneMore(ps: People, before: seq<Commit>, mid: People, c: Commit, h: seq<Commit>, ps': People)
    requires PeopleSettled(ps, before, mid) && (IsPr(c) || IsReview(c))
    requires forall x :: x in h <==> x in before || x == c
    requires ps' == if IsPr(c) then mid else ApplyPerson(mid, c.tenant, c.content.reviews[0])
    ensures PeopleSettled(ps, h, ps')
  {
    forall k | k in ps' && k !in ps
      ensures ps'[k] == PersonOf(k) && exists x :: x in h && Attributed(x) && PersonKeyIn(x) == k
    {
      if k in mid {
        var x :| x in before && Attributed(x) && PersonKeyIn(x) == k;
        assert x in h;
      } else {
        assert c in h && Attributed(c) && PersonKeyIn(c) == k;
      }
    }
  }

  ghost predicate MarksSettled(ds: map<DeliveryKey, string>, h: seq<Commit>, ds': map<DeliveryKey, string>) {
    && (forall c :: c in h ==> DeliveryKey(c.tenant, c.deliveryId) in ds'
                               && ds'[DeliveryKey(c.tenant, c.deliveryId)] == c.eventType)
    && (forall k :: k in ds' ==> k in ds || exists c :: c in h && DeliveryKey(c.tenant, c.deliveryId) == k)
    && (forall k :: k in ds && (forall c :: c in h ==> DeliveryKey(c.tenant, c.deliveryId) != k)
                    ==> k in ds' && ds'[k] == ds[k])
  }

  lemma {:induction false} MarksConverge(v: View, p: Commit, h: seq<Commit>)
    requires Family(p, h) && AllComplete(h)
    ensures MarksSettled(v.deliveries, h, After(v, h).deliveries)
    ensures After(v, h).checks == v.checks
  {
    if h != [] {
      var before, c := h[..|h| - 1], h[|h| - 1];
      FamilyShrinks(p, h);
      OneMore(v, h);
      ApplyInFamily(After(v, before), c);
      DistinctFromEarlier(p, h);
      assert c.deliveryId != "";
      hide After, Apply, Family, MarksSettled;
      MarksConverge(v, p, before);
      MarksSettledOneMore(v.deliveries, before, After(v, before).deliveries, c, h);
    }
  }

  lemma MarksSettledOneMore(
      ds: map<DeliveryKey, string>, before: seq<Commit>, mid: map<DeliveryKey, string>, c: Commit, h: seq<Commit>)
    requires MarksSettled(ds, before, mid) && c.deliveryId != ""
    requires forall x :: x in h <==> x in before || x == c
    requires forall x :: x in before ==> x.deliveryId != c.deliveryId
    ensures MarksSettled(ds, h, ApplyMark(mid, c))
  {
  }

  // ---- an order-free description has one solution ----

  ghost predicate SameMembers(h: seq<Commit>, h': seq<Commit>) {
    forall c :: c in h <==> c in h'
  }

  lemma ReviewsDetermined(rs: Reviews, h: seq<Commit>, h': seq<Commit>, a: Reviews, b: Reviews)
    requires ReviewsSettled(rs, h, a) && ReviewsSettled(rs, h', b) && SameMembers(h, h')
    ensures a == b
  {
    hide ReviewRowOf;
    forall k ensures k in a <==> k in b ensures k in a && k in b ==> a[k] == b[k] {
      if c :| c in h && Writes(c, k) {
        assert c in h';
      }
    }
  }

  lemma PeopleDetermined(ps: People, h: seq<Commit>, h': seq<Commit>, a: People, b: People)
    requires PeopleSettled(ps, h, a) && PeopleSettled(ps, h', b) && SameMembers(h, h')
    ensures a == b
  {
    forall k ensures k in a <==> k in b ensures k in a && k in b ==> a[k] == b[k] {
    }
  }

  lemma MarksDetermined(
      ds: map<DeliveryKey, string>, h: seq<Commit>, h': seq<Commit>,
      a: map<DeliveryKey, string>, b: map<DeliveryKey, string>)
    requires MarksSettled(ds, h, a) && MarksSettled(ds, h', b) && SameMembers(h, h')
    ensures a == b
  {
    forall k ensures k in a <==> k in b ensures k in a && k in b ==> a[k] == b[k] {
      if c :| c in h && DeliveryKey(c.tenant, c.deliveryId) == k {
        assert c in h';
      }
    }
  }

  // ---- events: the same ones, in another order ----

  lemma {:induction false} EventsAccumulate(v: View, h: seq<Commit>)
    requires AllComplete(h)
    ensures After(v, h).events == v.events + AllEvents(h)
  {
    hide Complete, EventsOf;
    if h == [] {
      assert v.events + [] == v.events;
    } else {
      EventsAccumulate(v, h[..|h| - 1]);
    }
  }

  lemma {:induction false} EventsWithout(a: seq<Commit>, c: Commit, b: seq<Commit>)
    ensures multiset(AllEvents(a + [c] + b)) == multiset(AllEvents(a + b)) + multiset(EventsOf(c.tenant, c.content))
    decreases |b|
  {
    hide EventsOf;
    if b == [] {
      assert (a + [c] + b)[..|a|] == a && a + b == a;
    } else {
      var b', last := b[..|b| - 1], b[|b| - 1];
      assert (a + [c] + b)[..|a| + |b|] == a + [c] + b';
      assert (a + b)[..|a + b| - 1] == a + b';
      EventsWithout(a, c, b');
    }
  }

  lemma {:induction false} EventsConverge(h: seq<Commit>, h': seq<Commit>)
    requires multiset(h) == multiset(h')
    ensures multiset(AllEvents(h)) == multiset(AllEvents(h'))
  {
    hide EventsOf;
    if h == [] {
      assert |h'| == |multiset(h')| == 0;
    } else {
      var before, c := h[..|h| - 1], h[|h| - 1];
      assert h == before + [c];
      assert multiset(h) == multiset(before) + multiset{c};
      assert c in multiset(h');
      var i :| 0 <= i < |h'| && h'[i] == c;
      assert h' == h'[..i] + [c] + h'[i + 1..];
      assert multiset(h') == multiset(h'[..i] + h'[i + 1..]) + multiset{c};
      assert multiset(before) == multiset(h) - multiset{c};
      assert multiset(h'[..i] + h'[i + 1..]) == multiset(h') - multiset{c};
      EventsConverge(before, h'[..i] + h'[i + 1..]);
      EventsWithout(h'[..i], c, h'[i + 1..]);
    }
  }

  // ---- the theorems ----

  ghost predicate EqualUpToEventOrder(a: View, b: View) {
    a.(events := []) == b.(events := []) && multiset(a.events) == multiset(b.events)
  }

  lemma SameMultisetSameMembers(h: seq<Commit>, h': seq<Commit>)
    requires multiset(h) == multiset(h')
    ensures SameMembers(h, h')
  {
    forall c ensures c in h <==> c in h' {
      assert c in h <==> c in multiset(h);
      assert c in h' <==> c in multiset(h');
    }
  }

  /** From any state, every processing order of the family ends in the same work item, the
      same reviews, the same people and the same multiset of events. */
  lemma OrderDoesNotMatter(v: View, p: Commit, h: seq<Commit>, h': seq<Commit>)
    requires Family(p, h) && Family(p, h') && p in h && multiset(h) == multiset(h')
    ensures AllComplete(h) && AllComplete(h') && EqualUpToEventOrder(After(v, h), After(v, h'))
  {
    FamilyIsComplete(p, h);
    FamilyIsComplete(p, h');
    SameMultisetSameMembers(h, h');
    hide Family, Complete, After, PrRow;
    WorksConverge(v, p, h);
    WorksConverge(v, p, h');
    hide ReviewsSettled, PeopleSettled, MarksSettled;
    ReviewsConverge(v, p, h);
    ReviewsConverge(v, p, h');
    ReviewsDetermined(v.reviews, h, h', After(v, h).reviews, After(v, h').reviews);
    PeopleConverge(v, p, h);
    PeopleConverge(v, p, h');
    PeopleDetermined(v.people, h, h', After(v, h).people, After(v, h').people);
    MarksConverge(v, p, h);
    MarksConverge(v, p, h');
    MarksDetermined(v.deliveries, h, h', After(v, h).deliveries, After(v, h').deliveries);
    EventsAccumulate(v, h);
    EventsAccumulate(v, h');
    EventsConverge(h, h');
  }

  lemma {:induction false} MeaningFrom(before: seq<Commit>, h: seq<Commit>)
    requires AllComplete(before + h)
    ensures AllComplete(before) && AllComplete(h) && Meaning(before + h) == After(Meaning(before), h)
  {
    hide Complete, Apply;
    assert forall i :: 0 <= i < |before| ==> (before + h)[i] == before[i];
    assert forall i :: 0 <= i < |h| ==> (before + h)[|before| + i] == h[i];
    if h == [] {
      assert before + h == before;
    } else {
      assert (before + h)[..|before + h| - 1] == before + h[..|h| - 1];
      MeaningFrom(before, h[..|h| - 1]);
    }
  }

  /** Two runs that, after the same deliveries, committed the same family in different orders
      hold the same tables up to generated values and the order of the outbox. */
  lemma OutOfOrderConvergence(
      installs: Installs, run: seq<Attempt>, run': seq<Attempt>, before: seq<Commit>, h: seq<Commit>, h': seq<Commit>,
      p: Commit)
    requires Run(installs, run).history == before + h && Run(installs, run').history == before + h'
    requires Family(p, h) && Family(p, h') && p in h && multiset(h) == multiset(h')
    ensures var s, s' := Run(installs, run), Run(installs, run');
            && AllComplete(s.history) && AllComplete(s'.history)
            && Rep(s.tables, Meaning(s.history)) && Rep(s'.tables, Meaning(s'.history))
            && EqualUpToEventOrder(Meaning(s.history), Meaning(s'.history))
  {
    hide Run, Rep, Family, Complete, After, Meaning, NoRepeats, EqualUpToEventOrder;
    ExactlyOnceEffect(installs, run);
    ExactlyOnceEffect(installs, run');
    MeaningFrom(before, h);
    MeaningFrom(before, h');
    OrderDoesNotMatter(Meaning(before), p, h, h');
  }

  // ---- with unrelated deliveries in between ----

  /** The delivery touches the work item or one of the reviews. */
  ghost predicate Touches(c: Commit, work: WorkKey, reviews: set<SourceKey>) {
    || (exists wi :: wi in c.content.workItems && KeyOf(c.tenant, wi) == work)
    || (exists rv :: rv in c.content.reviews && SourceKey(c.tenant, rv.sourceId) in reviews)
  }

  ghost function Touching(h: seq<Commit>, work: WorkKey, reviews: set<SourceKey>): seq<Commit> {
    if h == [] then []
    else
      var before, last := Touching(h[..|h| - 1], work, reviews), h[|h| - 1];
      if Touches(last, work, reviews) then before + [last] else before
  }

  /** The two views have the same work item and the same reviews under these keys. */
  ghost predicate SameRows(v: View, w: View, work: WorkKey, reviews: set<SourceKey>) {
    && (work in v.works <==> work in w.works) && (work in v.works ==> v.works[work] == w.works[work])
    && (forall k :: k in reviews ==>
          (k in v.reviews <==> k in w.reviews) && (k in v.reviews ==> v.reviews[k] == w.reviews[k]))
  }

  ghost predicate SameWorkAt(ws: Works, xs: Works, k: WorkKey) {
    (k in ws <==> k in xs) && (k in ws ==> ws[k] == xs[k])
  }

  ghost predicate SameReviewAt(rs: Reviews, xs: Reviews, k: SourceKey) {
    (k in rs <==> k in xs) && (k in rs ==> rs[k] == xs[k])
  }

  /** What becomes of a work item depends on that item alone. */
  lemma {:induction false} WorksAreLocal(ws: Works, xs: Works, tenant: Tenant, items: seq<WorkItem>, k: WorkKey)
    requires SameWorkAt(ws, xs, k)
    ensures SameWorkAt(ApplyWorks(ws, tenant, items), ApplyWorks(xs, tenant, items), k)
    decreases |items|
  {
    hide Columns, Refreshed;
    if items != [] {
      WorksAreLocal(ApplyWork(ws, tenant, items[0]), ApplyWork(xs, tenant, items[0]), tenant, items[1..], k);
    }
  }

  lemma {:induction false} WorksUntouched(ws: Works, tenant: Tenant, items: seq<WorkItem>, k: WorkKey)
    requires forall wi :: wi in items ==> KeyOf(tenant, wi) != k
    ensures SameWorkAt(ApplyWorks(ws, tenant, items), ws, k)
    decreases |items|
  {
    hide Columns, Refreshed;
    if items != [] {
      assert items[0] in items && forall wi :: wi in items[1..] ==> wi in items;
      WorksUntouched(ApplyWork(ws, tenant, items[0]), tenant, items[1..], k);
    }
  }

  lemma {:induction false} ReviewsAreLocal(
      rs: Reviews, xs: Reviews, tenant: Tenant, reviews: seq<Review>, keys: map<string, WorkKey>, k: SourceKey)
    requires ParentsIn(keys, reviews) && SameReviewAt(rs, xs, k)
    ensures SameReviewAt(ApplyReviews(rs, tenant, reviews, keys), ApplyReviews(xs, tenant, reviews, keys), k)
    decreases |reviews|
  {
    if reviews != [] {
      var rv := reviews[0];
      ReviewsAreLocal(ApplyReview(rs, tenant, rv, keys[rv.prNodeId]), ApplyReview(xs, tenant, rv, keys[rv.prNodeId]),
                      tenant, reviews[1..], keys, k);
    }
  }

  lemma {:induction false} ReviewsUntouched(
      rs: Reviews, tenant: Tenant, reviews: seq<Review>, keys: map<string, WorkKey>, k: SourceKey)
    requires ParentsIn(keys, reviews) && forall rv :: rv in reviews ==> SourceKey(tenant, rv.sourceId) != k
    ensures SameReviewAt(ApplyReviews(rs, tenant, reviews, keys), rs, k)
    decreases |reviews|
  {
    if reviews != [] {
      var rv := reviews[0];
      assert rv in reviews && forall r :: r in reviews[1..] ==> r in reviews;
      ReviewsUntouched(ApplyReview(rs, tenant, rv, keys[rv.prNodeId]), tenant, reviews[1..], keys, k);
    }
  }

  lemma ApplyIsLocal(v: View, w: View, c: Commit, work: WorkKey, reviews: set<SourceKey>)
    requires Complete(c) && SameRows(v, w, work, reviews)
    ensures SameRows(Apply(v, c), Apply(w, c), work, reviews)
  {
    hide ApplyWorks, ApplyReviews, ApplyChecks, ApplyPeople, ApplyMark, EventsOf, NodeKeys, ParentsIn;
    WorksAreLocal(v.works, w.works, c.tenant, c.content.workItems, work);
    forall k | k in reviews ensures SameReviewAt(Apply(v, c).reviews, Apply(w, c).reviews, k) {
      ReviewsAreLocal(v.reviews, w.reviews, c.tenant, c.content.reviews, NodeKeys(c.tenant, c.content.workItems), k);
    }
  }

  lemma ApplyElsewhere(v: View, c: Commit, work: WorkKey, reviews: set<SourceKey>)
    requires Complete(c) && !Touches(c, work, reviews)
    ensures SameRows(Apply(v, c), v, work, reviews)
  {
    hide ApplyWorks, ApplyReviews, ApplyChecks, ApplyPeople, ApplyMark, EventsOf, NodeKeys, ParentsIn;
    WorksUntouched(v.works, c.tenant, c.content.workItems, work);
    forall k | k in reviews ensures SameReviewAt(Apply(v, c).reviews, v.reviews, k) {
      ReviewsUntouched(v.reviews, c.tenant, c.content.reviews, NodeKeys(c.tenant, c.content.workItems), k);
    }
  }

  /** For these rows only the deliveries that touch them count. */
  lemma {:induction false} OnlyTouchingCount(v: View, h: seq<Commit>, work: WorkKey, reviews: set<SourceKey>)
    requires AllComplete(h)
    ensures AllComplete(Touching(h, work, reviews))
    ensures SameRows(After(v, h), After(v, Touching(h, work, reviews)), work, reviews)
  {
    hide Complete, Apply, Touches;
    if h != [] {
      var before, last := h[..|h| - 1], h[|h| - 1];
      OnlyTouchingCount(v, before, work, reviews);
      var touching := Touching(before, work, reviews);
      if Touches(last, work, reviews) {
        OneMore(v, touching + [last]);
        assert (touching + [last])[..|touching|] == touching;
        ApplyIsLocal(After(v, before), After(v, touching), last, work, reviews);
      } else {
        ApplyElsewhere(After(v, before), last, work, reviews);
      }
    }
  }

  /** Whatever else two runs committed after the same deliveries, in whatever order: if what touches
      the PR or these reviews is the same family in both, both end with the same work item, the same
      reviews, and the same multiset of the family's events. */
  lemma InterleavedConvergence(
      installs: Installs, run: seq<Attempt>, run': seq<Attempt>, before: seq<Commit>, h: seq<Commit>, h': seq<Commit>,
      p: Commit, reviews: set<SourceKey>)
    requires Run(installs, run).history == before + h && Run(installs, run').history == before + h'
    requires IsPr(p)
    requires var f, f' := Touching(h, KeyIn(p), reviews), Touching(h', KeyIn(p), reviews);
             Family(p, f) && Family(p, f') && p in f && multiset(f) == multiset(f')
    ensures var s, s' := Run(installs, run), Run(installs, run');
            && AllComplete(s.history) && AllComplete(s'.history)
            && Rep(s.tables, Meaning(s.history)) && Rep(s'.tables, Meaning(s'.history))
            && SameRows(Meaning(s.history), Meaning(s'.history), KeyIn(p), reviews)
            && multiset(AllEvents(Touching(h, KeyIn(p), reviews))) == multiset(AllEvents(Touching(h', KeyIn(p),
                reviews)))
  {
    hide Run, Rep, Family, Complete, After, Meaning, NoRepeats, Touching, IsPr, AllEvents;
    ExactlyOnceEffect(installs, run);
    ExactlyOnceEffect(installs, run');
    MeaningFrom(before, h);
    MeaningFrom(before, h');
    var v, f, f' := Meaning(before), Touching(h, KeyIn(p), reviews), Touching(h', KeyIn(p), reviews);
    OnlyTouchingCount(v, h, KeyIn(p), reviews);
    OnlyTouchingCount(v, h', KeyIn(p), reviews);
    OrderDoesNotMatter(v, p, f, f');
    EventsConverge(f, f');
  }
}
