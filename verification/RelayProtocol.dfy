/**
  services/outbox-relay as a transition system: normalizers commit outbox rows at
  any time, and any number of relays run passes over them. A pass locks a batch,
  publishes it row by row, and stamps what was acknowledged; it can fail at any
  point, and a failed write may have reached the topic.
 */
module RelayProtocol {
  import opened Prelude

  type RowId = nat
  type RelayId = nat

  /**
    An open pass: the rows it locked, how many were published, whether the next one
    was written although its write reported an error, and whether it has stopped.
   */
  datatype Pass = Pass(batch: seq<RowId>, sent: nat, doubtful: bool, stopped: bool)

  /**
    committed: the rows of the outbox table in the order they became visible.
    stamped: those with published_at set. topic: what consumers of the canonical
    topic see, by row. wasted: for each row, how many finished passes wrote it
    without stamping it (kept for the proofs only).
   */
  datatype Outbox = Outbox(
    committed: seq<RowId>,
    stamped: set<RowId>,
    topic: seq<RowId>,
    passes: map<RelayId, Pass>,
    wasted: multiset<RowId>)

  const EMPTY := Outbox([], {}, [], map[], multiset{})

  datatype Action =
    | CommitRows(rows: seq<RowId>)                 // a normalizer's transaction becomes visible
    | Lock(relay: RelayId, batch: seq<RowId>)      // SELECT .. FOR UPDATE SKIP LOCKED
    | Publish(relay: RelayId, fate: WriteFate)
    | Stamp(relay: RelayId)                        // UPDATE and COMMIT succeed
    | Abandon(relay: RelayId)                      // crash, failed UPDATE or failed COMMIT

  function Elements(s: seq<RowId>): set<RowId> {
    set x | x in s
  }

  /** Rows some open pass holds a lock on. */
  function Locked(o: Outbox): set<RowId> {
    set p, x | p in o.passes && x in o.passes[p].batch :: x
  }

  function Pending(o: Outbox): set<RowId> {
    Elements(o.committed) - o.stamped
  }

  predicate Ascending(s: seq<RowId>) {
    forall i, j :: 0 <= i < j < |s| ==> s[i] < s[j]
  }

  /** WHERE published_at IS NULL ORDER BY outbox_id LIMIT limit FOR UPDATE SKIP LOCKED. */
  predicate IsBatch(o: Outbox, batch: seq<RowId>, limit: nat) {
    var eligible := Pending(o) - Locked(o);
    && Ascending(batch) && |batch| <= limit
    && (forall x :: x in batch ==> x in eligible)
    && (forall x, y :: x in eligible && y in batch && x < y ==> x in batch)
    && (|batch| < limit ==> forall x :: x in eligible ==> x in batch)
  }

  /** What a pass has put into the topic. */
  function Written(p: Pass): seq<RowId>
    requires p.sent <= |p.batch|
  {
    if p.doubtful && p.sent < |p.batch| then p.batch[..p.sent + 1] else p.batch[..p.sent]
  }

  predicate Enabled(o: Outbox, a: Action) {
    match a
    case CommitRows(rows) =>
      (forall i, j :: 0 <= i < j < |rows| ==> rows[i] != rows[j]) && (forall x :: x in rows ==> x !in o.committed)
    case Lock(r, batch) => r !in o.passes && batch != [] && IsBatch(o, batch, |batch|)
    case Publish(r, _) => r in o.passes && !o.passes[r].stopped && o.passes[r].sent < |o.passes[r].batch|
    case Stamp(r) => r in o.passes && (o.passes[r].stopped || o.passes[r].sent == |o.passes[r].batch|)
    case Abandon(r) => r in o.passes
  }

  predicate PassesInRange(o: Outbox) {
    forall r :: r in o.passes ==> o.passes[r].sent <= |o.passes[r].batch|
  }

  /** The effect of one action; a disabled action does nothing. */
  function Step(o: Outbox, a: Action): Outbox
    requires PassesInRange(o)
  {
    if !Enabled(o, a) then o
    else
      match a
      case CommitRows(rows) => o.(committed := o.committed + rows)
      case Lock(r, batch) => o.(passes := o.passes[r := Pass(batch, 0, false, false)])
      case Publish(r, fate) =>
        var p := o.passes[r];
        (match fate
         case Acknowledged => o.(topic := o.topic + [p.batch[p.sent]], passes := o.passes[r := p.(sent := p.sent + 1)])
         case Failed => o.(passes := o.passes[r := p.(stopped := true)])
         case FailedButWritten =>
           o.(topic := o.topic + [p.batch[p.sent]], passes := o.passes[r := p.(stopped := true, doubtful := true)]))
      case Stamp(r) =>
        var p := o.passes[r];
        o.(stamped := o.stamped + Elements(p.batch[..p.sent]), passes := o.passes - {r},
           wasted := o.wasted + multiset(Written(p)[p.sent..]))
      case Abandon(r) =>
        o.(passes := o.passes - {r}, wasted := o.wasted + multiset(Written(o.passes[r])))
  }

  function Run(acts: seq<Action>): (o: Outbox)
    ensures PassesInRange(o)
  {
    if acts == [] then EMPTY
    else
      var before := Run(acts[..|acts| - 1]);
      StepKeepsRange(before, acts[|acts| - 1]);
      Step(before, acts[|acts| - 1])
  }

  lemma StepKeepsRange(o: Outbox, a: Action)
    requires PassesInRange(o)
    ensures PassesInRange(Step(o, a))
  {
  }

  // ---- what every reachable outbox satisfies ----

  ghost predicate NoDuplicates(s: seq<RowId>) {
    forall i, j :: 0 <= i < j < |s| ==> s[i] != s[j]
  }

  ghost predicate PassOk(o: Outbox, p: Pass) {
    && p.sent <= |p.batch| && Ascending(p.batch)
    && (p.doubtful ==> p.stopped && p.sent < |p.batch|)
    && (forall x :: x in p.batch ==> x in o.committed && x !in o.stamped)
  }

  ghost predicate PassesDisjoint(o: Outbox) {
    forall r, q, x :: r in o.passes && q in o.passes && x in o.passes[r].batch && x in o.passes[q].batch ==> r == q
  }

  /** Some open pass has put the row into the topic. */
  ghost predicate OpenlyWritten(o: Outbox, x: RowId)
    requires PassesInRange(o)
  {
    exists r :: r in o.passes && x in Written(o.passes[r])
  }

  /** How often each row is in the topic. */
  ghost predicate Counted(o: Outbox)
    requires PassesInRange(o)
  {
    forall x :: multiset(o.topic)[x]
             == o.wasted[x] + (if x in o.stamped then 1 else 0) + (if OpenlyWritten(o, x) then 1 else 0)
  }

  ghost predicate Inv(o: Outbox) {
    && NoDuplicates(o.committed)
    && (forall x :: x in o.stamped ==> x in o.committed)
    && (forall x :: x in o.topic ==> x in o.committed)
    && (forall r :: r in o.passes ==> PassOk(o, o.passes[r]))
    && PassesInRange(o)
    && PassesDisjoint(o)
    && Counted(o)
  }

  lemma {:induction false} AscendingCounts(s: seq<RowId>, x: RowId)
    requires Ascending(s)
    ensures multiset(s)[x] == if x in s then 1 else 0
  {
    if s != [] {
      var before := s[..|s| - 1];
      assert s == before + [s[|s| - 1]];
      AscendingCounts(before, x);
    }
  }

  /** Only the pass that locked a row can have written it. */
  lemma WrittenByItsPass(o: Outbox, r: RelayId, x: RowId)
    requires Inv(o) && r in o.passes && x in o.passes[r].batch
    ensures OpenlyWritten(o, x) <==> x in Written(o.passes[r])
    ensures x !in o.stamped
  {
    hide Counted;
  }

  lemma PublishKeepsCounts(o: Outbox, r: RelayId, fate: WriteFate)
    requires Inv(o) && Enabled(o, Publish(r, fate))
    ensures PassesInRange(Step(o, Publish(r, fate))) && Counted(Step(o, Publish(r, fate)))
  {
    hide IsBatch, NoDuplicates;
    var o', p := Step(o, Publish(r, fate)), o.passes[r];
    var p' := o'.passes[r];
    var y := p.batch[p.sent];
    if fate == Failed {
      assert Written(p') == Written(p);
      forall x ensures OpenlyWritten(o', x) <==> OpenlyWritten(o, x) {
        SamePassesWrite(o, o', r, x);
      }
    } else {
      assert Written(p') == Written(p) + [y];
      WrittenByItsPass(o, r, y);
      assert y !in Written(p);
      forall x
        ensures multiset(o'.topic)[x]
             == o'.wasted[x] + (if x in o'.stamped then 1 else 0) + (if OpenlyWritten(o', x) then 1 else 0)
      {
        if x == y {
          assert y in Written(o'.passes[r]);
        } else {
          assert x in Written(p') <==> x in Written(p);
          SamePassesWrite(o, o', r, x);
        }
      }
    }
  }

  lemma SamePassesWrite(o: Outbox, o': Outbox, r: RelayId, x: RowId)
    requires PassesInRange(o) && PassesInRange(o') && r in o.passes && r in o'.passes
    requires o'.passes == o.passes[r := o'.passes[r]]
    requires x in Written(o'.passes[r]) <==> x in Written(o.passes[r])
    ensures OpenlyWritten(o', x) <==> OpenlyWritten(o, x)
  {
    if OpenlyWritten(o, x) {
      var q :| q in o.passes && x in Written(o.passes[q]);
      assert q in o'.passes && x in Written(o'.passes[q]);
    }
    if OpenlyWritten(o', x) {
      var q :| q in o'.passes && x in Written(o'.passes[q]);
      assert q in o.passes && x in Written(o.passes[q]);
    }
  }

  /** Closing a pass: what it wrote is afterwards either stamped or wasted, once. */
  lemma CloseKeepsCounts(o: Outbox, r: RelayId, o': Outbox)
    requires Inv(o) && r in o.passes
    requires o'.topic == o.topic && o'.passes == o.passes - {r} && PassesInRange(o')
    requires var p := o.passes[r];
             || (o'.stamped == o.stamped && o'.wasted == o.wasted + multiset(Written(p)))
             || (o'.stamped == o.stamped + Elements(p.batch[..p.sent])
                 && o'.wasted == o.wasted + multiset(Written(p)[p.sent..]))
    ensures Counted(o')
  {
    var p := o.passes[r];
    var w := Written(p);
    assert w == p.batch[..p.sent] + w[p.sent..];
    forall x
      ensures multiset(o'.topic)[x]
           == o'.wasted[x] + (if x in o'.stamped then 1 else 0) + (if OpenlyWritten(o', x) then 1 else 0)
    {
      AscendingCounts(w, x);
      AscendingCounts(w[p.sent..], x);
      if x in p.batch {
        WrittenByItsPass(o, r, x);
        NotWrittenElsewhere(o, r, o', x);
        if x in w && x in p.batch[..p.sent] {
          AscendingSplits(w, p.sent, x);
        }
      } else {
        OthersStillWrite(o, r, o', x);
      }
    }
  }

  lemma AscendingSplits(s: seq<RowId>, n: nat, x: RowId)
    requires Ascending(s) && n <= |s| && x in s[..n]
    ensures x !in s[n..]
  {
  }

  lemma NotWrittenElsewhere(o: Outbox, r: RelayId, o': Outbox, x: RowId)
    requires Inv(o) && r in o.passes && x in o.passes[r].batch && o'.passes == o.passes - {r} && PassesInRange(o')
    ensures !OpenlyWritten(o', x)
  {
    hide Counted;
  }

  lemma OthersStillWrite(o: Outbox, r: RelayId, o': Outbox, x: RowId)
    requires Inv(o) && r in o.passes && x !in o.passes[r].batch && o'.passes == o.passes - {r} && PassesInRange(o')
    ensures OpenlyWritten(o', x) <==> OpenlyWritten(o, x)
  {
    hide Counted;
    if OpenlyWritten(o, x) {
      var q :| q in o.passes && x in Written(o.passes[q]);
      assert q in o'.passes && x in Written(o'.passes[q]);
    }
  }

  lemma LockKeepsCounts(o: Outbox, r: RelayId, batch: seq<RowId>)
    requires Inv(o) && Enabled(o, Lock(r, batch))
    ensures PassesInRange(Step(o, Lock(r, batch))) && Counted(Step(o, Lock(r, batch)))
  {
    var o' := Step(o, Lock(r, batch));
    assert Written(o'.passes[r]) == [];
    forall x ensures OpenlyWritten(o', x) <==> OpenlyWritten(o, x) {
      if OpenlyWritten(o, x) {
        var q :| q in o.passes && x in Written(o.passes[q]);
        assert q in o'.passes && x in Written(o'.passes[q]);
      }
    }
  }

  lemma StepKeepsCounts(o: Outbox, a: Action)
    requires Inv(o)
    ensures PassesInRange(Step(o, a)) && Counted(Step(o, a))
  {
    StepKeepsRange(o, a);
    if Enabled(o, a) {
      match a
      case CommitRows(rows) =>
        forall x ensures OpenlyWritten(Step(o, a), x) <==> OpenlyWritten(o, x) {
        }
      case Lock(r, batch) => LockKeepsCounts(o, r, batch);
      case Publish(r, fate) => PublishKeepsCounts(o, r, fate);
      case Stamp(r) => CloseKeepsCounts(o, r, Step(o, a));
      case Abandon(r) => CloseKeepsCounts(o, r, Step(o, a));
    }
  }

  lemma StepKeepsPasses(o: Outbox, a: Action)
    requires Inv(o)
    ensures var o' := Step(o, a);
            (forall r :: r in o'.passes ==> PassOk(o', o'.passes[r])) && PassesDisjoint(o')
  {
    hide Counted;
    if Enabled(o, a) && a.Lock? {
      forall r, x | r in o.passes && x in o.passes[r].batch ensures x !in a.batch {
        assert x in Locked(o);
      }
    }
  }

  lemma StepKeepsRows(o: Outbox, a: Action)
    requires Inv(o)
    ensures var o' := Step(o, a);
            && NoDuplicates(o'.committed)
            && (forall x :: x in o'.stamped ==> x in o'.committed)
            && (forall x :: x in o'.topic ==> x in o'.committed)
  {
    hide Counted;
    var o' := Step(o, a);
    if Enabled(o, a) && a.CommitRows? {
      forall i, j | 0 <= i < j < |o'.committed| ensures o'.committed[i] != o'.committed[j] {
        if j >= |o.committed| {
          assert o'.committed[j] == a.rows[j - |o.committed|] && a.rows[j - |o.committed|] in a.rows;
        }
      }
    }
  }

  lemma StepKeepsInv(o: Outbox, a: Action)
    requires Inv(o)
    ensures Inv(Step(o, a))
  {
    StepKeepsRange(o, a);
    StepKeepsRows(o, a);
    StepKeepsPasses(o, a);
    StepKeepsCounts(o, a);
    hide Step, Counted, PassOk, PassesDisjoint, NoDuplicates;
  }

  lemma {:induction false} RunKeepsInv(acts: seq<Action>)
    ensures Inv(Run(acts))
  {
    hide Step, Inv;
    if acts == [] {
      EmptyInv();
    } else {
      RunKeepsInv(acts[..|acts| - 1]);
      StepKeepsInv(Run(acts[..|acts| - 1]), acts[|acts| - 1]);
    }
  }

  lemma RunOneMore(acts: seq<Action>, a: Action)
    ensures Run(acts + [a]) == Step(Run(acts), a)
  {
    assert (acts + [a])[..|acts|] == acts;
  }

  lemma EmptyInv()
    ensures Inv(EMPTY)
  {
  }

  // ---- no lost and no phantom emit ----

  /** Every message in the topic is a committed row, every stamped row is in the topic, and every
      committed row is in the topic or still pending. */
  lemma NoLostOrPhantomEmit(acts: seq<Action>)
    ensures var o := Run(acts);
            && (forall x :: x in o.topic ==> x in o.committed)
            && (forall x :: x in o.stamped ==> x in o.topic)
            && (forall x :: x in o.committed ==> x in o.topic || x in Pending(o))
  {
    RunKeepsInv(acts);
    var o := Run(acts);
    hide Run;
    forall x | x in o.stamped ensures x in o.topic {
      assert multiset(o.topic)[x] >= 1;
    }
  }

  // ---- several relays ----

  /** The batches of passes open at the same time have no row in common, and a row appears in
      the topic at most once more than the number of finished passes that wrote it in vain. */
  lemma DuplicatesAreAccountedFor(acts: seq<Action>)
    ensures var o := Run(acts);
            && PassesDisjoint(o)
            && (forall x :: multiset(o.topic)[x] <= o.wasted[x] + 1)
            && (forall x :: x in o.committed && x !in o.stamped
                            && (forall r :: r in o.passes ==> x !in o.passes[r].batch)
                            ==> multiset(o.topic)[x] == o.wasted[x])
  {
    RunKeepsInv(acts);
    var o := Run(acts);
    hide Run;
    forall x ensures multiset(o.topic)[x] <= o.wasted[x] + 1 {
      if OpenlyWritten(o, x) {
        var r :| r in o.passes && x in Written(o.passes[r]);
        assert x in o.passes[r].batch;
      }
    }
  }
}
