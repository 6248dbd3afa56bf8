/** In which order rows first reach the topic. */
module RelayOrder {
  import opened Prelude
  import opened RelayProtocol

  /** x is in the topic before y is. */
  ghost predicate Precedes(topic: seq<RowId>, x: RowId, y: RowId) {
    exists k :: 0 <= k < |topic| && topic[k] == x && y !in topic[..k + 1]
  }

  /** Of two rows whose commit order agrees with their ids, the later is first published after
      the earlier. */
  ghost predicate Ordered(committed: seq<RowId>, topic: seq<RowId>) {
    forall i, j :: 0 <= i < j < |committed| && committed[i] < committed[j] && committed[j] in topic
                   ==> Precedes(topic, committed[i], committed[j])
  }

  /** One relay at a time: no pass is opened while another is open. */
  ghost predicate OneRelay(acts: seq<Action>) {
    forall n :: 0 <= n < |acts| && acts[n].Lock? ==> Run(acts[..n]).passes == map[]
  }

  ghost predicate AtMostOnePass(o: Outbox) {
    forall r, q :: r in o.passes && q in o.passes ==> r == q
  }

  /** An open batch reaches down to every smaller row committed earlier and still unstamped. */
  ghost predicate BatchReachesDown(o: Outbox, batch: seq<RowId>) {
    forall i, j :: 0 <= i < j < |o.committed| && o.committed[i] < o.committed[j] && o.committed[j] in batch
                   ==> o.committed[i] in batch || o.committed[i] in o.stamped
  }

  ghost predicate OrderInv(o: Outbox) {
    && Inv(o) && AtMostOnePass(o) && Ordered(o.committed, o.topic)
    && (forall r :: r in o.passes ==> BatchReachesDown(o, o.passes[r].batch))
  }

  lemma PrecedesStays(topic: seq<RowId>, more: RowId, x: RowId, y: RowId)
    requires Precedes(topic, x, y)
    ensures Precedes(topic + [more], x, y)
  {
    var k :| 0 <= k < |topic| && topic[k] == x && y !in topic[..k + 1];
    assert (topic + [more])[..k + 1] == topic[..k + 1];
  }

  lemma WrittenRowsAreInTopic(o: Outbox, x: RowId)
    requires Inv(o) && (x in o.stamped || OpenlyWritten(o, x))
    ensures x in o.topic
  {
    assert multiset(o.topic)[x] >= 1;
  }

  /** Appending a row whose smaller elders are all out keeps the order. */
  lemma AppendKeepsOrder(committed: seq<RowId>, topic: seq<RowId>, x: RowId)
    requires Ordered(committed, topic)
    requires forall i, j :: 0 <= i < j < |committed| && committed[i] < committed[j] && committed[j] == x
                            ==> committed[i] in topic
    ensures Ordered(committed, topic + [x])
  {
    forall i, j | 0 <= i < j < |committed| && committed[i] < committed[j] && committed[j] in topic + [x]
      ensures Precedes(topic + [x], committed[i], committed[j])
    {
      var a, b := committed[i], committed[j];
      if b in topic {
        PrecedesStays(topic, x, a, b);
      } else {
        assert b == x;
        var k :| 0 <= k < |topic| && topic[k] == a;
        assert (topic + [x])[..k + 1] == topic[..k + 1];
      }
    }
  }

  lemma PublishKeepsOrder(o: Outbox, r: RelayId, fate: WriteFate)
    requires OrderInv(o) && Enabled(o, Publish(r, fate))
    ensures Ordered(Step(o, Publish(r, fate)).committed, Step(o, Publish(r, fate)).topic)
  {
    var x := o.passes[r].batch[o.passes[r].sent];
    forall i, j | 0 <= i < j < |o.committed| && o.committed[i] < o.committed[j] && o.committed[j] == x
      ensures o.committed[i] in o.topic
    {
      EarlierRowIsOut(o, r, i, j);
    }
    AppendKeepsOrder(o.committed, o.topic, x);
    hide Inv, Ordered, BatchReachesDown;
  }

  /** When a pass is about to write a row, every smaller row committed before it is in the topic. */
  lemma EarlierRowIsOut(o: Outbox, r: RelayId, i: nat, j: nat)
    requires OrderInv(o) && Enabled(o, Publish(r, Acknowledged))
    requires i < j < |o.committed| && o.committed[i] < o.committed[j]
    requires o.committed[j] == o.passes[r].batch[o.passes[r].sent]
    ensures o.committed[i] in o.topic
  {
    hide Counted, Ordered;
    var p, a := o.passes[r], o.committed[i];
    assert BatchReachesDown(o, p.batch);
    if a !in o.stamped {
      var k :| 0 <= k < |p.batch| && p.batch[k] == a;
      assert k < p.sent;
      assert a in Written(p);
      assert OpenlyWritten(o, a);
    }
    WrittenRowsAreInTopic(o, a);
  }

  lemma CommitKeepsOrder(o: Outbox, rows: seq<RowId>)
    requires OrderInv(o) && Enabled(o, CommitRows(rows))
    ensures var o' := Step(o, CommitRows(rows));
            && Ordered(o'.committed, o'.topic)
            && (forall r :: r in o'.passes ==> BatchReachesDown(o', o'.passes[r].batch))
  {
    hide Counted;
    var o' := Step(o, CommitRows(rows));
    forall j | |o.committed| <= j < |o'.committed|
      ensures o'.committed[j] !in o.topic
      ensures forall r :: r in o.passes ==> o'.committed[j] !in o.passes[r].batch
    {
      assert o'.committed[j] == rows[j - |o.committed|] && rows[j - |o.committed|] in rows;
    }
    forall r | r in o'.passes ensures BatchReachesDown(o', o'.passes[r].batch) {
      assert BatchReachesDown(o, o.passes[r].batch);
    }
  }

  lemma LockKeepsReach(o: Outbox, r: RelayId, batch: seq<RowId>)
    requires Inv(o) && Enabled(o, Lock(r, batch)) && o.passes == map[]
    ensures BatchReachesDown(o, batch)
  {
    hide Counted;
    assert Locked(o) == {};
  }

  /** Closing the one open pass leaves none open, and the topic as it was. */
  lemma CloseKeepsOrder(o: Outbox, a: Action)
    requires OrderInv(o) && Enabled(o, a) && (a.Stamp? || a.Abandon?)
    ensures Step(o, a).committed == o.committed && Step(o, a).topic == o.topic && Step(o, a).passes == map[]
  {
    hide Inv, Ordered, BatchReachesDown, Written;
  }

  lemma PublishKeepsReach(o: Outbox, r: RelayId, fate: WriteFate)
    requires OrderInv(o) && Enabled(o, Publish(r, fate))
    ensures var o' := Step(o, Publish(r, fate));
            && AtMostOnePass(o') && (forall q :: q in o'.passes ==> BatchReachesDown(o', o'.passes[q].batch))
  {
    hide Inv, Ordered;
    assert BatchReachesDown(o, o.passes[r].batch);
    var o' := Step(o, Publish(r, fate));
    assert o'.passes[r].batch == o.passes[r].batch;
    SameReach(o, o', o.passes[r].batch);
    hide BatchReachesDown;
  }

  lemma SameReach(o: Outbox, o': Outbox, batch: seq<RowId>)
    requires BatchReachesDown(o, batch) && o'.committed == o.committed && o'.stamped == o.stamped
    ensures BatchReachesDown(o', batch)
  {
  }

  lemma LockKeepsOrder(o: Outbox, r: RelayId, batch: seq<RowId>)
    requires OrderInv(o) && o.passes == map[] && Enabled(o, Lock(r, batch))
    ensures OrderInv(Step(o, Lock(r, batch)))
  {
    StepKeepsInv(o, Lock(r, batch));
    LockKeepsReach(o, r, batch);
    hide Inv, Ordered, IsBatch;
    var o' := Step(o, Lock(r, batch));
    SameReach(o, o', batch);
    hide BatchReachesDown;
  }

  lemma StepKeepsOrder(o: Outbox, a: Action)
    requires OrderInv(o) && (a.Lock? ==> o.passes == map[])
    ensures OrderInv(Step(o, a))
  {
    if Enabled(o, a) {
      StepKeepsInv(o, a);
      match a
      case CommitRows(rows) =>
        CommitKeepsOrder(o, rows);
        hide Inv, Ordered, BatchReachesDown;
      case Lock(r, batch) =>
        LockKeepsOrder(o, r, batch);
      case Publish(r, fate) =>
        PublishKeepsOrder(o, r, fate);
        PublishKeepsReach(o, r, fate);
        hide Inv, Ordered, BatchReachesDown, AtMostOnePass;
      case Stamp(r) =>
        CloseKeepsOrder(o, a);
        hide Inv, Ordered, BatchReachesDown, Step;
      case Abandon(r) =>
        CloseKeepsOrder(o, a);
        hide Inv, Ordered, BatchReachesDown, Step;
    }
  }

  /** With one relay, first publications follow the ids wherever the commits did: a row is never
      first published before a smaller row that became visible before it. */
  lemma {:induction false} OneRelayKeepsOrder(acts: seq<Action>)
    requires OneRelay(acts)
    ensures OrderInv(Run(acts))
  {
    hide Step, OrderInv;
    if acts == [] {
      EmptyOrderInv();
    } else {
      var before, a := acts[..|acts| - 1], acts[|acts| - 1];
      assert OneRelay(before) by {
        forall n | 0 <= n < |before| && before[n].Lock? ensures Run(before[..n]).passes == map[] {
          assert before[..n] == acts[..n] && before[n] == acts[n];
        }
      }
      OneRelayKeepsOrder(before);
      StepKeepsOrder(Run(before), a);
    }
  }

  lemma EmptyOrderInv()
    ensures OrderInv(EMPTY)
  {
    EmptyInv();
  }

  // ---- the topic with later duplicates removed ----

  function Dedup(topic: seq<RowId>): seq<RowId> {
    if topic == [] then []
    else
      var before, last := topic[..|topic| - 1], topic[|topic| - 1];
      if last in before then Dedup(before) else Dedup(before) + [last]
  }

  lemma {:induction false} DedupKeepsRows(topic: seq<RowId>, x: RowId)
    ensures x in Dedup(topic) <==> x in topic
  {
    if topic != [] {
      var before, last := topic[..|topic| - 1], topic[|topic| - 1];
      DedupKeepsRows(before, x);
      assert topic == before + [last];
    }
  }

  lemma OrderedBefore(committed: seq<RowId>, topic: seq<RowId>)
    requires topic != [] && Ordered(committed, topic)
    ensures Ordered(committed, topic[..|topic| - 1])
  {
    var before := topic[..|topic| - 1];
    forall i, j | 0 <= i < j < |committed| && committed[i] < committed[j] && committed[j] in before
      ensures Precedes(before, committed[i], committed[j])
    {
      var k :| 0 <= k < |topic| && topic[k] == committed[i] && committed[j] !in topic[..k + 1];
      var m :| 0 <= m < |before| && before[m] == committed[j];
      assert topic[m] == committed[j] && k < m;
      assert before[..k + 1] == topic[..k + 1];
    }
  }

  /** The rows of a set that is downward closed in an ascending sequence, and the next one. */
  lemma NextInLine(committed: seq<RowId>, prefix: seq<RowId>, j: nat)
    requires Ascending(committed) && prefix <= committed && j < |committed|
    requires committed[j] !in prefix && forall i :: 0 <= i < j ==> committed[i] in prefix
    ensures j == |prefix|
  {
    assert forall i :: 0 <= i < |prefix| ==> prefix[i] == committed[i];
    assert forall i :: 0 <= i < |prefix| ==> committed[i] in prefix;
    forall i | |prefix| <= i < |committed| ensures committed[i] !in prefix {
      assert forall k :: 0 <= k < |prefix| ==> prefix[k] == committed[k] && committed[k] < committed[i];
    }
    if |prefix| < |committed| {
      var next := committed[|prefix|];
    }
  }

  lemma {:induction false} DedupIsPrefix(committed: seq<RowId>, topic: seq<RowId>)
    requires Ascending(committed) && Ordered(committed, topic) && forall x :: x in topic ==> x in committed
    ensures Dedup(topic) <= committed
  {
    if topic != [] {
      var before, last := topic[..|topic| - 1], topic[|topic| - 1];
      assert topic == before + [last];
      OrderedBefore(committed, topic);
      DedupIsPrefix(committed, before);
      if last !in before {
        assert last in topic;
        var j :| 0 <= j < |committed| && committed[j] == last;
        EarlierAreBefore(committed, topic, j);
        forall i | 0 <= i < j ensures committed[i] in Dedup(before) {
          DedupKeepsRows(before, committed[i]);
        }
        DedupKeepsRows(before, last);
        NextInLine(committed, Dedup(before), j);
        assert Dedup(topic) == committed[..j + 1];
      }
    }
  }

  lemma EarlierAreBefore(committed: seq<RowId>, topic: seq<RowId>, j: nat)
    requires Ascending(committed) && Ordered(committed, topic) && topic != [] && j < |committed|
    requires committed[j] == topic[|topic| - 1] && committed[j] in topic
    ensures forall i :: 0 <= i < j ==> committed[i] in topic[..|topic| - 1]
  {
    forall i | 0 <= i < j ensures committed[i] in topic[..|topic| - 1] {
      assert Precedes(topic, committed[i], committed[j]);
      var k :| 0 <= k < |topic| && topic[k] == committed[i] && committed[j] !in topic[..k + 1];
      assert topic[..|topic| - 1][k] == committed[i];
    }
  }

  /** With one relay and rows that become visible in id order, the topic without its later
      duplicates is a prefix of the outbox, whatever writes, stamps and passes failed. */
  lemma TopicIsPrefixOfOutbox(acts: seq<Action>)
    requires OneRelay(acts) && Ascending(Run(acts).committed)
    ensures Dedup(Run(acts).topic) <= Run(acts).committed
  {
    hide Run;
    OneRelayKeepsOrder(acts);
    hide Ordered, Counted;
    DedupIsPrefix(Run(acts).committed, Run(acts).topic);
  }

  // ---- both assumptions are needed ----

  /** The second relay skips the rows the first has locked, and is quicker to publish. */
  function RacingRelays(): seq<Action> {
    [CommitRows([0, 1]), Lock(0, [0]), Lock(1, [1]), Publish(1, Acknowledged)]
  }

  /** Two relays at once: the second one's batch can overtake the first one's. */
  lemma TwoRelaysReorder()
    ensures var o := Run(RacingRelays());
            Ascending(o.committed) && o.topic == [1] && !(Dedup(o.topic) <= o.committed)
  {
    hide Run, Step;
    var a := CommitBoth();
    var b := FirstLock(a);
    var c := SecondLock(b);
    var d := LatePublish(c);
    assert d == RacingRelays();
    DedupOne();
    hide Dedup;
    assert [1][0] != [0, 1][0];
  }

  lemma LatePublish(before: seq<Action>) returns (acts: seq<Action>)
    requires Run(before)
          == Outbox([0, 1], {}, [], map[0 := Pass([0], 0, false, false), 1 := Pass([1], 0, false, false)], multiset{})
    ensures acts == before + [Publish(1, Acknowledged)]
    ensures Run(acts).topic == [1] && Run(acts).committed == [0, 1]
  {
    acts := before + [Publish(1, Acknowledged)];
    RunOneMore(before, Publish(1, Acknowledged));
    hide Run;
    PublishSecond(Run(before));
  }

  lemma DedupOne()
    ensures Dedup([1]) == [1]
  {
    assert [1][..0] == [];
  }

  lemma PublishSecond(o: Outbox)
    requires o == Outbox([0, 1], {}, [], map[0 := Pass([0], 0, false, false), 1 := Pass([1], 0, false, false)],
        multiset{})
    ensures PassesInRange(o)
    ensures Step(o, Publish(1, Acknowledged)).topic == [1]
    ensures Step(o, Publish(1, Acknowledged)).committed == [0, 1]
  {
  }

  lemma CommitBoth() returns (acts: seq<Action>)
    ensures acts == [CommitRows([0, 1])]
    ensures Run(acts) == Outbox([0, 1], {}, [], map[], multiset{})
  {
    acts := [CommitRows([0, 1])];
    RunOneMore([], acts[0]);
    assert [] + acts == acts;
  }

  lemma FirstLock(before: seq<Action>) returns (acts: seq<Action>)
    requires Run(before) == Outbox([0, 1], {}, [], map[], multiset{})
    ensures acts == before + [Lock(0, [0])]
    ensures Run(acts) == Outbox([0, 1], {}, [], map[0 := Pass([0], 0, false, false)], multiset{})
  {
    acts := before + [Lock(0, [0])];
    RunOneMore(before, Lock(0, [0]));
    hide Run;
    assert IsBatch(Run(before), [0], 1);
  }

  lemma SecondLock(before: seq<Action>) returns (acts: seq<Action>)
    requires Run(before) == Outbox([0, 1], {}, [], map[0 := Pass([0], 0, false, false)], multiset{})
    ensures acts == before + [Lock(1, [1])]
    ensures Run(acts) == Outbox([0, 1], {}, [],
              map[0 := Pass([0], 0, false, false), 1 := Pass([1], 0, false, false)], multiset{})
  {
    acts := before + [Lock(1, [1])];
    RunOneMore(before, Lock(1, [1]));
    hide Run;
    var o := Run(before);
    assert Locked(o) == {0} by { assert 0 in o.passes && 0 in o.passes[0].batch; }
    assert Pending(o) == {0, 1};
    assert IsBatch(o, [1], 1);
  }

  // ---- the order of commits decides ----

  function Insert(x: RowId, s: seq<RowId>): seq<RowId> {
    if s == [] || x <= s[0] then [x] + s else [s[0]] + Insert(x, s[1..])
  }

  /** The rows in id order. */
  function InIdOrder(rows: seq<RowId>): seq<RowId> {
    if rows == [] then [] else Insert(rows[|rows| - 1], InIdOrder(rows[..|rows| - 1]))
  }

  lemma {:induction false} InsertKeeps(x: RowId, s: seq<RowId>)
    requires Ascending(s) && x !in s
    ensures Ascending(Insert(x, s)) && |Insert(x, s)| == |s| + 1
    ensures forall y :: y in Insert(x, s) <==> y == x || y in s
  {
    if s != [] && s[0] < x {
      var rest := Insert(x, s[1..]);
      InsertKeeps(x, s[1..]);
      assert forall i :: 0 <= i < |rest| ==> rest[i] in rest;
      assert forall y :: y in s <==> y == s[0] || y in s[1..];
    }
  }

  lemma {:induction false} InIdOrderKeeps(rows: seq<RowId>)
    requires NoDuplicates(rows)
    ensures Ascending(InIdOrder(rows)) && |InIdOrder(rows)| == |rows|
    ensures forall x :: x in InIdOrder(rows) <==> x in rows
  {
    if rows != [] {
      var before, last := rows[..|rows| - 1], rows[|rows| - 1];
      InIdOrderKeeps(before);
      assert rows == before + [last];
      InsertKeeps(last, InIdOrder(before));
    }
  }

  lemma {:induction false} AscendingIsInIdOrder(rows: seq<RowId>)
    requires Ascending(rows)
    ensures InIdOrder(rows) == rows
  {
    if rows != [] {
      var before, last := rows[..|rows| - 1], rows[|rows| - 1];
      AscendingIsInIdOrder(before);
      assert forall i :: 0 <= i < |before| ==> before[i] == rows[i] < last;
      InsertLast(last, before);
      assert rows == before + [last];
    }
  }

  lemma {:induction false} InsertLast(x: RowId, s: seq<RowId>)
    requires forall y :: y in s ==> y < x
    ensures Insert(x, s) == s + [x]
  {
    if s != [] {
      assert s[0] in s && forall y :: y in s[1..] ==> y in s;
      InsertLast(x, s[1..]);
      assert s == [s[0]] + s[1..];
    }
  }

  lemma {:induction false} DedupDistinct(rows: seq<RowId>)
    requires NoDuplicates(rows)
    ensures Dedup(rows) == rows
  {
    if rows != [] {
      DedupDistinct(rows[..|rows| - 1]);
      assert rows == rows[..|rows| - 1] + [rows[|rows| - 1]];
    }
  }

  /** Each row by a transaction of its own. */
  function CommitEach(rows: seq<RowId>): seq<Action> {
    if rows == [] then [] else CommitEach(rows[..|rows| - 1]) + [CommitRows([rows[|rows| - 1]])]
  }

  function Acknowledge(n: nat): seq<Action> {
    if n == 0 then [] else Acknowledge(n - 1) + [Publish(0, Acknowledged)]
  }

  /** One relay drains what is visible of the first rows; the rest become visible afterwards. */
  function DrainThenCommit(first: seq<RowId>, rest: seq<RowId>): seq<Action> {
    CommitEach(first) + [Lock(0, InIdOrder(first))] + Acknowledge(|first|) + CommitEach(rest)
  }

  lemma DistinctFront(shown: seq<RowId>, rows: seq<RowId>)
    requires NoDuplicates(shown + rows) && rows != []
    ensures NoDuplicates(shown + rows[..|rows| - 1])
  {
    var front, all := shown + rows[..|rows| - 1], shown + rows;
    assert forall i :: 0 <= i < |front| ==> front[i] == all[i];
  }

  lemma {:induction false} CommitEachRuns(before: seq<Action>, rows: seq<RowId>)
    requires NoDuplicates(Run(before).committed + rows)
    ensures Run(before + CommitEach(rows)) == Run(before).(committed := Run(before).committed + rows)
  {
    hide Run, Step, NoDuplicates;
    var o := Run(before);
    if rows == [] {
      assert before + [] == before && o.committed + [] == o.committed;
    } else {
      var front, last := rows[..|rows| - 1], rows[|rows| - 1];
      DistinctFront(o.committed, rows);
      CommitEachRuns(before, front);
      RunOneMore(before + CommitEach(front), CommitRows([last]));
      assert before + CommitEach(rows) == before + CommitEach(front) + [CommitRows([last])];
      assert o.committed + front + [last] == o.committed + rows;
      OneRowCommits(Run(before + CommitEach(front)), last);
    }
  }

  lemma OneRowCommits(o: Outbox, x: RowId)
    requires PassesInRange(o) && NoDuplicates(o.committed + [x])
    ensures Step(o, CommitRows([x])) == o.(committed := o.committed + [x])
  {
    assert forall i :: 0 <= i < |o.committed| ==> o.committed[i] == (o.committed + [x])[i];
    assert (o.committed + [x])[|o.committed|] == x;
  }

  lemma {:induction false} AcknowledgeRuns(before: seq<Action>, batch: seq<RowId>, n: nat)
    requires n <= |batch| && Run(before).passes == map[0 := Pass(batch, 0, false, false)]
    ensures Run(before + Acknowledge(n))
         == Run(before).(topic := Run(before).topic + batch[..n], passes := map[0 := Pass(batch, n, false, false)])
  {
    hide Run, Step;
    if n == 0 {
      assert before + [] == before && Run(before).topic + [] == Run(before).topic;
    } else {
      AcknowledgeRuns(before, batch, n - 1);
      RunOneMore(before + Acknowledge(n - 1), Publish(0, Acknowledged));
      assert before + Acknowledge(n) == before + Acknowledge(n - 1) + [Publish(0, Acknowledged)];
      OneRowPublishes(Run(before + Acknowledge(n - 1)), batch, n - 1);
      assert Run(before).topic + batch[..n - 1] + [batch[n - 1]] == Run(before).topic + batch[..n];
    }
  }

  lemma OneRowPublishes(o: Outbox, batch: seq<RowId>, n: nat)
    requires n < |batch| && o.passes == map[0 := Pass(batch, n, false, false)]
    ensures PassesInRange(o)
    ensures Step(o, Publish(0, Acknowledged))
         == o.(topic := o.topic + [batch[n]], passes := map[0 := Pass(batch, n + 1, false, false)])
  {
  }

  lemma AllVisibleLocks(o: Outbox, batch: seq<RowId>)
    requires PassesInRange(o) && o.passes == map[] && o.stamped == {} && batch != []
    requires Ascending(batch) && forall x :: x in batch <==> x in o.committed
    ensures Step(o, Lock(0, batch)) == o.(passes := map[0 := Pass(batch, 0, false, false)])
  {
    assert Locked(o) == {};
    assert IsBatch(o, batch, |batch|);
  }

  lemma {:induction false} OnlyCommits(rows: seq<RowId>)
    ensures forall n :: 0 <= n < |CommitEach(rows)| ==> CommitEach(rows)[n].CommitRows?
  {
    if rows != [] {
      OnlyCommits(rows[..|rows| - 1]);
    }
  }

  lemma {:induction false} OnlyPublishes(n: nat)
    ensures forall i :: 0 <= i < |Acknowledge(n)| ==> Acknowledge(n)[i].Publish?
  {
    if n > 0 {
      OnlyPublishes(n - 1);
    }
  }

  lemma DrainThenCommitRuns(first: seq<RowId>, rest: seq<RowId>)
    requires first != [] && NoDuplicates(first + rest)
    ensures Run(DrainThenCommit(first, rest)).committed == first + rest
    ensures Run(DrainThenCommit(first, rest)).topic == InIdOrder(first)
    ensures OneRelay(DrainThenCommit(first, rest))
  {
    var sorted := InIdOrder(first);
    var a := CommitEach(first);
    var b := a + [Lock(0, sorted)];
    var c := b + Acknowledge(|first|);
    assert NoDuplicates(first) by {
      assert forall i :: 0 <= i < |first| ==> first[i] == (first + rest)[i];
    }
    assert [] + a == a && [] + first == first;
    CommitEachRuns([], first);
    InIdOrderKeeps(first);
    RunOneMore(a, Lock(0, sorted));
    var o := Run(a);
    hide Run, Step, InIdOrder;
    AllVisibleLocks(o, sorted);
    AcknowledgeRuns(b, sorted, |first|);
    assert sorted[..|first|] == sorted && [] + sorted == sorted;
    CommitEachRuns(c, rest);
    assert DrainThenCommit(first, rest) == c + CommitEach(rest);
    LocksOnce(first, rest);
  }

  lemma LocksOnce(first: seq<RowId>, rest: seq<RowId>)
    requires Run(CommitEach(first)).passes == map[]
    ensures OneRelay(DrainThenCommit(first, rest))
  {
    hide Run;
    var a, acts := CommitEach(first), DrainThenCommit(first, rest);
    OnlyCommits(first);
    OnlyCommits(rest);
    OnlyPublishes(|first|);
    forall n | 0 <= n < |acts| && acts[n].Lock? ensures Run(acts[..n]).passes == map[] {
      assert n == |a|;
      assert acts[..n] == a;
    }
  }

  /** The prefix property, over every run of one relay that ends with these rows visible. */
  ghost predicate PrefixHolds(committed: seq<RowId>) {
    forall acts :: OneRelay(acts) && Run(acts).committed == committed ==> Dedup(Run(acts).topic) <= committed
  }

  /** The same against the rows in id order. */
  ghost predicate IdOrderPrefixHolds(committed: seq<RowId>) {
    forall acts :: OneRelay(acts) && Run(acts).committed == committed
                   ==> Dedup(Run(acts).topic) <= InIdOrder(committed)
  }

  lemma PrefixOfItself(committed: seq<RowId>, sorted: seq<RowId>)
    requires NoDuplicates(committed) && sorted <= committed && Ascending(sorted) && |sorted| == |committed|
    ensures Ascending(committed)
  {
  }

  /** With one relay the topic without later duplicates is a prefix of the outbox, whatever
      failed, exactly when the rows became visible in id order. */
  lemma PrefixIffAscending(committed: seq<RowId>)
    requires NoDuplicates(committed)
    ensures PrefixHolds(committed) <==> Ascending(committed)
  {
    if Ascending(committed) {
      forall acts | OneRelay(acts) && Run(acts).committed == committed ensures Dedup(Run(acts).topic) <= committed {
        TopicIsPrefixOfOutbox(acts);
      }
    } else {
      assert committed != [] && committed + [] == committed;
      DrainThenCommitRuns(committed, []);
      InIdOrderKeeps(committed);
      DedupDistinct(InIdOrder(committed));
      if InIdOrder(committed) <= committed {
        PrefixOfItself(committed, InIdOrder(committed));
      }
    }
  }

  lemma {:induction false} Descent(rows: seq<RowId>) returns (i: nat)
    requires NoDuplicates(rows) && !Ascending(rows)
    ensures i + 1 < |rows| && rows[i + 1] < rows[i]
  {
    var before := rows[..|rows| - 1];
    if Ascending(before) {
      i := |rows| - 2;
    } else {
      i := Descent(before);
    }
  }

  /** A row published although a smaller one is still to come is not where the ids put it. */
  lemma NotInIdOrder(drained: seq<RowId>, all: seq<RowId>, x: RowId, y: RowId)
    requires Ascending(all) && x in drained && y !in drained && y in all && y < x
    ensures !(drained <= all)
  {
    var k :| 0 <= k < |drained| && drained[k] == x;
    var m :| 0 <= m < |all| && all[m] == y;
  }

  /** Nor is it a prefix of the rows in id order under any weaker condition: a transaction that
      drew the lower id and commits after the higher row was published is overtaken. */
  lemma IdOrderPrefixIffAscending(committed: seq<RowId>)
    requires NoDuplicates(committed)
    ensures IdOrderPrefixHolds(committed) <==> Ascending(committed)
  {
    if Ascending(committed) {
      AscendingIsInIdOrder(committed);
      forall acts | OneRelay(acts) && Run(acts).committed == committed ensures Dedup(Run(acts).topic) <= committed {
        TopicIsPrefixOfOutbox(acts);
      }
    } else {
      var i := Descent(committed);
      var first, rest := committed[..i + 1], committed[i + 1..];
      assert committed == first + rest && committed[i] == first[i];
      assert NoDuplicates(first) && committed[i + 1] !in first;
      DrainThenCommitRuns(first, rest);
      InIdOrderKeeps(first);
      InIdOrderKeeps(committed);
      DedupDistinct(InIdOrder(first));
      NotInIdOrder(InIdOrder(first), InIdOrder(committed), committed[i], committed[i + 1]);
    }
  }

  /** The smallest such run: row 1 is published, then row 0 becomes visible. */
  lemma LateCommitIsOvertaken()
    ensures var acts := DrainThenCommit([1], [0]);
            && OneRelay(acts) && Run(acts).committed == [1, 0] && Run(acts).topic == [1]
            && !(Dedup(Run(acts).topic) <= InIdOrder(Run(acts).committed))
  {
    assert [1] + [0] == [1, 0];
    DrainThenCommitRuns([1], [0]);
    InIdOrderKeeps([1]);
    InIdOrderKeeps([1, 0]);
    hide Run, CommitEach, Acknowledge;
    assert InIdOrder([1])[0] in InIdOrder([1]);
    DedupDistinct(InIdOrder([1]));
    NotInIdOrder(InIdOrder([1]), InIdOrder([1, 0]), 1, 0);
  }
}
