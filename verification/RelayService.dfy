/**
  services/outbox-relay/main.go as an imperative program over the shared outbox.
  Between any two of its statements the normalizers and other relays may take any
  steps of their own, and each of its own statements may fail.
 */
module RelayService {
  import opened Prelude
  import opened RelayProtocol

  /** Whose step an action is; commits belong to the normalizers. */
  predicate IsOf(a: Action, r: RelayId) {
    match a
    case CommitRows(_) => false
    case Lock(q, _) => q == r
    case Publish(q, _) => q == r
    case Stamp(q) => q == r
    case Abandon(q) => q == r
  }

  /**
    How the outside world treats one call of drainBatch: whether the query, the scan,
    the update and the commit succeed and whether a commit that happened is reported;
    the fate of the i-th write; and what everyone else does before the k-th statement.
   */
  datatype Env = Env(
    queried: bool, scanned: bool, updated: bool, committed: bool, reported: bool,
    writes: nat -> WriteFate, others: nat -> seq<Action>)
  {
    ghost predicate Calm() {
      && queried && scanned && updated && committed && reported
      && (forall i :: writes(i) == Acknowledged) && (forall k :: others(k) == [])
    }
  }

  /** How a pass that locked rows ended. */
  datatype Ending = Stamped(reported: bool) | RolledBack

  /** What one call of drainBatch did: nothing, or lock a batch, have a number of writes
      acknowledged, perhaps see one fail, and end. */
  datatype PassLog = Nothing | Attempted(batch: seq<RowId>, sent: nat, cut: bool, ending: Ending) {
    ghost function Actions(r: RelayId, env: Env): seq<Action> {
      if Nothing? then [] else [Lock(r, batch)] + AfterLock(r, env)
    }

    ghost function AfterLock(r: RelayId, env: Env): seq<Action>
      requires Attempted?
    {
      Acks(r, sent) + (if cut then [Publish(r, env.writes(sent))] else [])
      + [if ending.Stamped? then Stamp(r) else Abandon(r)]
    }

    /** The log is the one drainBatch must leave when the SELECT returned these rows. */
    ghost predicate Follows(env: Env, found: seq<RowId>) {
      match this
      case Nothing => found == []
      case Attempted(_, _, _, _) =>
        && found != [] && batch == found
        && (if !env.scanned then sent == 0 && !cut
            else AcksUntil(env.writes, |found|, sent) && cut == (sent < |found|))
        && (ending == if env.scanned && (sent == 0 || env.updated) && env.committed then Stamped(env.reported)
                      else RolledBack)
    }
  }

  /** The first writes are acknowledged, and the next one, if any of the count is left, is not. */
  ghost predicate AcksUntil(writes: nat -> WriteFate, count: nat, sent: nat) {
    && sent <= count
    && (forall i :: 0 <= i < sent ==> writes(i).Acknowledged?)
    && (sent < count ==> !writes(sent).Acknowledged?)
  }

  ghost function Acks(r: RelayId, sent: nat): seq<Action> {
    if sent == 0 then [] else Acks(r, sent - 1) + [Publish(r, Acknowledged)]
  }

  ghost predicate Extends(earlier: seq<Action>, later: seq<Action>) {
    earlier <= later
  }

  lemma ExtendsOn(earlier: seq<Action>, middle: seq<Action>, later: seq<Action>)
    requires Extends(earlier, middle) && Extends(middle, later)
    ensures Extends(earlier, later)
  {
  }

  lemma Appended(mine: seq<Action>, first: Action, rest: seq<Action>)
    ensures mine + [first] + rest == mine + ([first] + rest)
  {
  }

  /** What a relay may rely on while others act: its pass stays as it left it, no row is
      unstamped, and nothing leaves the outbox or the topic. */
  ghost predicate Undisturbed(o: Outbox, o': Outbox, r: RelayId) {
    && (r in o.passes <==> r in o'.passes)
    && (r in o.passes ==> o'.passes[r] == o.passes[r])
    && o.stamped <= o'.stamped && o.committed <= o'.committed && o.topic <= o'.topic
  }

  lemma StillInPass(o: Outbox, o': Outbox, r: RelayId)
    requires Undisturbed(o, o', r)
    ensures r in o.passes ==> r in o'.passes && o'.passes[r] == o.passes[r]
    ensures o.stamped <= o'.stamped
  {
  }

  lemma ExtendsByOne(first: seq<Action>, earlier: seq<Action>, later: seq<Action>)
    requires Extends(first, earlier)
    ensures later != [] && Extends(earlier, later[..|later| - 1]) ==> Extends(first, later)
  {
  }

  lemma OthersDoNotDisturb(o: Outbox, a: Action, r: RelayId)
    requires PassesInRange(o) && !IsOf(a, r)
    ensures Undisturbed(o, Step(o, a), r)
  {
    hide IsBatch, Written;
  }

  lemma MinExists(s: set<RowId>) returns (m: RowId)
    requires s != {}
    ensures m in s && forall x :: x in s ==> m <= x
  {
    var first :| first in s;
    m := first;
    if s != {first} {
      var least := MinExists(s - {first});
      m := if least < first then least else first;
      assert forall x :: x in s ==> x == first || x in s - {first};
    }
  }

  lemma LockTakes(o: Outbox, r: RelayId, batch: seq<RowId>, limit: nat)
    requires PassesInRange(o) && IsBatch(o, batch, limit) && batch != [] && r !in o.passes
    ensures Step(o, Lock(r, batch)) == o.(passes := o.passes[r := Pass(batch, 0, false, false)])
  {
    assert IsBatch(o, batch, |batch|);
  }

  lemma PublishMoves(o: Outbox, r: RelayId, fate: WriteFate)
    requires PassesInRange(o) && r in o.passes && !o.passes[r].stopped && o.passes[r].sent < |o.passes[r].batch|
    ensures var o', p := Step(o, Publish(r, fate)), o.passes[r];
            && o'.committed == o.committed && o'.stamped == o.stamped && o.topic <= o'.topic
            && o'.passes.Keys == o.passes.Keys
            && o'.passes[r].batch == p.batch
            && (if fate.Acknowledged?
                then o' == o.(topic := o.topic + [p.batch[p.sent]], passes := o.passes[r := p.(sent := p.sent + 1)])
                else o'.passes[r].stopped && o'.passes[r].sent == p.sent)
  {
  }

  lemma AbandonDrops(o: Outbox, r: RelayId)
    requires PassesInRange(o) && r in o.passes
    ensures var o' := Step(o, Abandon(r)); o'.passes == o.passes - {r}
  {
  }

  lemma StampDrops(o: Outbox, r: RelayId)
    requires PassesInRange(o) && r in o.passes && (o.passes[r].stopped || o.passes[r].sent == |o.passes[r].batch|)
    ensures var o', p := Step(o, Stamp(r)), o.passes[r];
            && o'.stamped == o.stamped + Elements(p.batch[..p.sent]) && o'.passes == o.passes - {r}
            && o'.topic == o.topic && o'.committed == o.committed
            && (p.sent == |p.batch| && !p.doubtful ==> o'.wasted == o.wasted)
  {
    var p := o.passes[r];
    assert p.sent == |p.batch| ==> p.batch[..p.sent] == p.batch && p.batch[p.sent..] == [];
  }

  /** What an open pass has published is in the topic and not stamped by anyone. */
  lemma PublishedRows(o: Outbox, r: RelayId)
    requires Inv(o) && r in o.passes
    ensures var p := o.passes[r];
            && p.sent <= |p.batch| && Ascending(p.batch[..p.sent])
            && forall x :: x in p.batch[..p.sent] ==> x in o.topic && x !in o.stamped
  {
    var p := o.passes[r];
    assert PassOk(o, p);
    forall x | x in p.batch[..p.sent] ensures x in o.topic {
      assert x in Written(p);
      assert OpenlyWritten(o, x);
      assert multiset(o.topic)[x] >= 1;
    }
  }

  class Relay {
    const id: RelayId
    const batchSize: int
    var world: Outbox
    ghost var trace: seq<Action>   // every step taken so far, by anyone
    ghost var own: seq<Action>     // those of this relay

    ghost predicate Valid()
      reads this
    {
      world == Run(trace)
    }

    constructor (id: RelayId, batchSize: int)
      ensures Valid() && this.id == id && this.batchSize == batchSize && world == EMPTY && own == []
    {
      this.id, this.batchSize, world, trace, own := id, batchSize, EMPTY, [], [];
    }

    /** One step on the shared outbox. */
    method Act(a: Action)
      requires Valid()
      modifies this`world, this`trace, this`own
      ensures Valid() && PassesInRange(old(world)) && world == Step(old(world), a)
      ensures trace == old(trace) + [a] && own == if IsOf(a, id) then old(own) + [a] else old(own)
    {
      hide Step;
      RunOneMore(trace, a);
      world := Step(world, a);
      trace := trace + [a];
      own := if IsOf(a, id) then own + [a] else own;
    }

    /** Normalizers commit and other relays work; this relay does not. */
    method Others(acts: seq<Action>)
      requires Valid()
      modifies this`world, this`trace, this`own
      ensures Valid() && Extends(old(trace), trace) && own == old(own) && Undisturbed(old(world), world, id)
      ensures acts == [] ==> world == old(world)
    {
      hide Step;
      var i := 0;
      while i < |acts|
        invariant 0 <= i <= |acts|
        invariant Valid() && Extends(old(trace), trace) && own == old(own) && Undisturbed(old(world), world, id)
        invariant i == 0 ==> world == old(world)
      {
        if !IsOf(acts[i], id) {
          OthersDoNotDisturb(world, acts[i], id);
          Act(acts[i]);
        }
        i := i + 1;
      }
    }

    /** The rows the SELECT of drainBatch returns. */
    method Select(limit: nat) returns (batch: seq<RowId>)
      ensures IsBatch(world, batch, limit)
    {
      var eligible := Pending(world) - Locked(world);
      var rest := eligible;
      batch := [];
      while |batch| < limit && rest != {}
        invariant |batch| <= limit && Ascending(batch)
        invariant rest <= eligible
        invariant forall x :: x in eligible <==> x in batch || x in rest
        invariant forall x, y :: x in batch && y in rest ==> x < y
        decreases rest
      {
        ghost var m := MinExists(rest);
        var x :| x in rest && forall y :: y in rest ==> x <= y;
        assert forall j :: 0 <= j < |batch| ==> batch[j] in batch;
        batch, rest := batch + [x], rest - {x};
      }
    }

    /** The open pass of this relay: what it has locked, how far it got, whether a write stopped it. */
    ghost predicate InPass(batch: seq<RowId>, published: seq<RowId>, cut: bool)
      reads this
    {
      && id in world.passes && published <= batch
      && world.passes[id].batch == batch && world.passes[id].sent == |published|
      && world.passes[id].stopped == cut
      && (!cut ==> !world.passes[id].doubtful)
    }

    /** The publishing loop of drainBatch: it stops at the first failure. */
    method Publish(batch: seq<RowId>, env: Env) returns (published: seq<RowId>, cut: bool)
      requires Valid() && InPass(batch, [], false)
      modifies this`world, this`trace, this`own
      ensures Valid() && Extends(old(trace), trace) && InPass(batch, published, cut)
      ensures old(world).stamped <= world.stamped
      ensures AcksUntil(env.writes, |batch|, |published|) && cut == (|published| < |batch|)
      ensures cut || published == batch
      ensures own == old(own) + Acks(id, |published|)
                  + if cut then [RelayProtocol.Publish(id, env.writes(|published|))] else []
      ensures env.Calm() ==> Appends(old(world), id, batch, world)
    {
      hide Step, Run, Extends, Undisturbed;
      published, cut := [], false;
      AppendsNothing(world, id, trace);
      while |published| < |batch|
        invariant Valid() && Extends(old(trace), trace) && InPass(batch, published, false)
        invariant old(world).stamped <= world.stamped
        invariant forall i :: 0 <= i < |published| ==> env.writes(i).Acknowledged?
        invariant own == old(own) + Acks(id, |published|)
        invariant env.Calm() ==> Appends(old(world), id, published, world)
        decreases |batch| - |published|
      {
        ghost var before, sofar := world, trace;
        Others(env.others(1 + |published|));
        StillInPass(before, world, id);
        var fate := env.writes(|published|);
        PublishMoves(world, id, fate);
        Act(RelayProtocol.Publish(id, fate));
        ExtendsByOne(old(trace), sofar, trace);
        if env.Calm() {
          AppendsOneMore(old(world), id, published, before, world, batch[|published|]);
        }
        if !fate.Acknowledged? {
          cut := true;
          break;
        }
        published := published + [batch[|published|]];
      }
    }

    /** The rest of drainBatch: stamp what was published and commit. */
    method Close(ghost batch: seq<RowId>, published: seq<RowId>, ghost cut: bool, env: Env)
      returns (n: nat, failed: bool, ghost ending: Ending)
      requires Valid() && InPass(batch, published, cut) && (!cut ==> published == batch)
      modifies this`world, this`trace, this`own
      ensures Valid() && Extends(old(trace), trace) && id !in world.passes
      ensures own == old(own) + [if ending.Stamped? then Stamp(id) else Abandon(id)]
      ensures ending == if (published == [] || env.updated) && env.committed then Stamped(env.reported) else RolledBack
      ensures failed == (ending != Stamped(true)) && n == if failed then 0 else |published|
      ensures Ascending(published)
      ensures !failed ==> forall x :: x in published ==>
                x !in old(world).stamped && x in world.stamped && x in world.topic
      ensures env.Calm() && !cut ==>
                && !failed
                && world == old(world).(stamped := old(world).stamped + Elements(published),
                    passes := old(world).passes - {id})
    {
      hide Step, Run, Inv;
      n, failed, ending := 0, true, RolledBack;
      Others(env.others(2 + |published|));
      RunKeepsInv(trace);
      PublishedRows(world, id);
      assert world.passes[id].batch[..|published|] == published;
      AbandonDrops(world, id);
      StampDrops(world, id);
      if |published| > 0 {
        if !env.updated {
          Act(Abandon(id));
          return;
        }
      }
      if !env.committed {
        Act(Abandon(id));
        return;
      }
      Act(Stamp(id));
      ending := Stamped(env.reported);
      if env.reported {
        n, failed := |published|, false;
      }
    }

    /** drainBatch once the rows are locked. */
    method PublishAndStamp(batch: seq<RowId>, env: Env)
      returns (n: nat, failed: bool, ghost log: PassLog, ghost rows: seq<RowId>)
      requires Valid() && InPass(batch, [], false) && batch != []
      modifies this`world, this`trace, this`own
      ensures Valid() && Extends(old(trace), trace) && id !in world.passes
      ensures log.Attempted? && log.Follows(env, batch) && own == old(own) + log.AfterLock(id, env)
      ensures failed == (log.ending != Stamped(true)) && n == if failed then 0 else log.sent
      ensures |rows| == n && NewlyStamped(rows, old(world), world)
      ensures env.Calm() ==>
                && !failed && rows == batch
                && world == old(world).(stamped := old(world).stamped + Elements(batch),
                    topic := old(world).topic + batch,
                                        passes := old(world).passes - {id})
    {
      n, failed, log, rows := 0, true, Attempted(batch, 0, false, RolledBack), [];
      if !env.scanned {
        AbandonDrops(world, id);
        Act(Abandon(id));
        return;
      }
      hide Step, Run, AcksUntil, Acks;
      var published, cut := Publish(batch, env);
      ghost var ending;
      n, failed, ending := Close(batch, published, cut, env);
      log := Attempted(batch, |published|, cut, ending);
      rows := if failed then [] else published;
    }

    /** drainBatch. seen: the steps behind the state its SELECT read; found: what that returned;
        rows: those it stamped and reported. */
    method DrainBatch(env: Env)
      returns (n: nat, failed: bool, ghost seen: seq<Action>, ghost found: seq<RowId>, ghost log: PassLog,
          ghost rows: seq<RowId>)
      requires Valid() && id !in world.passes
      modifies this`world, this`trace, this`own
      ensures Valid() && id !in world.passes && Extends(old(trace), seen) && Extends(seen, trace)
      ensures own == old(own) + log.Actions(id, env)
      ensures if !env.queried || batchSize < 0 then log == Nothing && failed
              else IsBatch(Run(seen), found, batchSize) && log.Follows(env, found)
                   && failed == (log.Attempted? && log.ending != Stamped(true))
      ensures n == if failed || log.Nothing? then 0 else log.sent
      ensures |rows| == n && NewlyStamped(rows, old(world), world)
      ensures env.Calm() && batchSize >= 0 ==>
                !failed && IsBatch(old(world), rows, batchSize) && Drains(old(world), rows, world)
    {
      n, failed, log, rows, found := 0, true, Nothing, [], [];
      hide Step, Run, IsBatch, AcksUntil, Drains, PassLog.AfterLock, Inv, NewlyStamped, PassesInRange;
      Others(env.others(0));
      seen := trace;
      NoneStamped(old(world), world);
      if !env.queried || batchSize < 0 {
        return;
      }
      var batch := Select(batchSize);
      found := batch;
      if batch == [] {
        NothingDrained(world, batchSize);
        failed := false;
        return;
      }
      LockTakes(world, id, batch, batchSize);
      Act(Lock(id, batch));
      ghost var locked, mid := world, trace;
      hide Extends;
      n, failed, log, rows := PublishAndStamp(batch, env);
      StampedSince(rows, old(world), locked, world);
      ExtendsOn(seen, mid, trace);
      Appended(old(own), Lock(id, batch), log.AfterLock(id, env));
      if env.Calm() {
        CalmPass(old(world), id, batch, locked, world);
      }
    }

    /** main's loop over turns calls, one after the other: with nothing failing and no one else
        acting, each call stamps a full batch while enough rows are pending, so that
        ceil(pending / batchSize) calls empty the outbox into the topic in id order. */
    method Drain(turns: nat, envs: nat -> Env) returns (reports: seq<nat>, ghost drained: seq<RowId>)
      requires Valid() && id !in world.passes
      modifies this`world, this`trace, this`own
      ensures Valid() && id !in world.passes && |reports| == turns
      ensures AllCalm(envs) && batchSize >= 1 && old(world).passes == map[] ==>
                Emptying(old(world), turns, batchSize, reports, drained, world)
    {
      hide Run, IsBatch, PassLog.Follows, Env.Calm, Drains, Reported, Pending, NewlyStamped;
      reports, drained := [], [];
      ghost var calm := AllCalm(envs) && batchSize >= 1 && world.passes == map[];
      NothingDrained(world, batchSize);
      while |reports| < turns
        invariant Valid() && id !in world.passes && |reports| <= turns
        invariant calm ==>
                    && Reported(reports, |Pending(old(world))|, batchSize)
                    && IsBatch(old(world), drained, |reports| * batchSize)
                    && Drains(old(world), drained, world)
        decreases turns - |reports|
      {
        ghost var before := world;
        ghost var failed, seen, found, log, rows;
        var n;
        n, failed, seen, found, log, rows := DrainBatch(envs(|reports|));
        if calm {
          NextBatch(old(world), drained, before, reports, rows, batchSize, world);
          drained := drained + rows;
        }
        reports := reports + [n];
      }
      if calm {
        BatchCount(old(world), drained, turns * batchSize);
        DrainedPending(old(world), drained, world);
      }
    }
  }

  /** o' is o with the rows stamped and, in this order, appended to the topic. */
  ghost predicate Drains(o: Outbox, rows: seq<RowId>, o': Outbox) {
    o' == o.(stamped := o.stamped + Elements(rows), topic := o.topic + rows)
  }

  ghost predicate AllCalm(envs: nat -> Env) {
    forall i :: envs(i).Calm()
  }

  /** What turns calls make of the outbox: each reports a full batch while that many rows are
      pending, and the smallest turns * batchSize pending rows go to the topic in id order. */
  ghost predicate Emptying(o: Outbox, turns: nat, batchSize: nat, reports: seq<nat>, drained: seq<RowId>, o': Outbox) {
    && |reports| == turns && Reported(reports, |Pending(o)|, batchSize)
    && |Pending(o')| == Left(|Pending(o)|, turns * batchSize)
    && IsBatch(o, drained, turns * batchSize) && Drains(o, drained, o')
  }

  /** Each call reports a full batch while that many rows are left, and then what is left. */
  ghost predicate Reported(reports: seq<nat>, pending: nat, batchSize: int) {
    forall i :: 0 <= i < |reports| && batchSize >= 0 ==> reports[i] == Min(batchSize, Left(pending, i * batchSize))
  }

  lemma NothingDrained(o: Outbox, batchSize: int)
    ensures Drains(o, [], o) && IsBatch(o, [], 0) && Reported([], |Pending(o)|, batchSize)
  {
    assert o.topic + [] == o.topic && Elements([]) == {};
  }

  /** The rows are in ascending order, in the topic, and stamped now but not before. */
  ghost predicate NewlyStamped(rows: seq<RowId>, before: Outbox, now: Outbox) {
    && Ascending(rows)
    && (forall x :: x in rows ==> x !in before.stamped && x in now.stamped && x in now.topic)
  }

  lemma NoneStamped(before: Outbox, now: Outbox)
    ensures NewlyStamped([], before, now)
  {
  }

  lemma StampedSince(rows: seq<RowId>, earlier: Outbox, before: Outbox, now: Outbox)
    requires NewlyStamped(rows, before, now) && earlier.stamped <= before.stamped
    ensures NewlyStamped(rows, earlier, now)
  {
  }

  /** Only the topic grew, by these rows, and only this relay's pass moved. */
  ghost predicate Appends(o: Outbox, r: RelayId, rows: seq<RowId>, o': Outbox) {
    o' == o.(topic := o.topic + rows, passes := o'.passes) && o'.passes - {r} == o.passes - {r}
  }

  lemma AppendsNothing(o: Outbox, r: RelayId, trace: seq<Action>)
    ensures Appends(o, r, [], o) && Extends(trace, trace)
  {
    assert o.topic + [] == o.topic;
  }

  lemma AppendsOneMore(o: Outbox, r: RelayId, rows: seq<RowId>, o1: Outbox, o2: Outbox, x: RowId)
    requires Appends(o, r, rows, o1)
    requires o2 == o1.(topic := o1.topic + [x], passes := o2.passes) && o2.passes - {r} == o1.passes - {r}
    ensures Appends(o, r, rows + [x], o2)
  {
    assert (o.topic + rows) + [x] == o.topic + (rows + [x]);
  }

  lemma CalmPass(o: Outbox, r: RelayId, batch: seq<RowId>, locked: Outbox, closed: Outbox)
    requires r !in o.passes && locked == o.(passes := o.passes[r := Pass(batch, 0, false, false)])
    requires closed == locked.(stamped := locked.stamped + Elements(batch), topic := locked.topic + batch,
                               passes := locked.passes - {r})
    ensures Drains(o, batch, closed)
  {
    assert locked.passes - {r} == o.passes;
  }

  lemma DrainedPending(o: Outbox, rows: seq<RowId>, o': Outbox)
    requires Drains(o, rows, o')
    ensures Pending(o') == Pending(o) - Elements(rows) && o'.passes == o.passes
  {
  }

  function Min(a: int, b: int): int {
    if a < b then a else b
  }

  /** What is left of a count after taking some away. */
  function Left(count: nat, taken: int): int {
    if taken < count then count - taken else 0
  }

  lemma {:induction false} AscendingSize(s: seq<RowId>)
    requires Ascending(s)
    ensures |Elements(s)| == |s|
  {
    if s != [] {
      var before, last := s[..|s| - 1], s[|s| - 1];
      AscendingSize(before);
      assert s == before + [last];
      assert Elements(s) == Elements(before) + {last};
      assert last !in before;
    }
  }

  /** Without other passes, a batch holds as many of the pending rows as the limit allows. */
  lemma BatchCount(o: Outbox, batch: seq<RowId>, limit: nat)
    requires IsBatch(o, batch, limit) && o.passes == map[]
    ensures |batch| == Min(limit, |Pending(o)|)
    ensures |Pending(o) - Elements(batch)| == Left(|Pending(o)|, limit)
  {
    AscendingSize(batch);
    assert Locked(o) == {};
    assert Elements(batch) <= Pending(o);
    assert |Pending(o)| == |Elements(batch)| + |Pending(o) - Elements(batch)|;
    if |batch| < limit {
      assert Pending(o) == Elements(batch);
    }
  }

  /** One more calm call of the loop. */
  lemma NextBatch(o: Outbox, drained: seq<RowId>, before: Outbox, reports: seq<nat>, rows: seq<RowId>,
      batchSize: nat, after: Outbox)
    requires o.passes == map[] && Reported(reports, |Pending(o)|, batchSize)
    requires IsBatch(o, drained, |reports| * batchSize) && Drains(o, drained, before)
    requires IsBatch(before, rows, batchSize) && Drains(before, rows, after)
    ensures IsBatch(o, drained + rows, (|reports| + 1) * batchSize) && Drains(o, drained + rows, after)
    ensures Reported(reports + [|rows|], |Pending(o)|, batchSize)
  {
    hide IsBatch, Pending, Drains, Reported, Locked;
    DrainedPending(o, drained, before);
    BatchCount(o, drained, |reports| * batchSize);
    BatchCount(before, rows, batchSize);
    BatchesJoin(o, drained, |reports| * batchSize, before, rows, batchSize);
    OneMoreReport(reports, |Pending(o)|, |rows|, batchSize);
    DrainsJoin(o, drained, before, rows, after);
    assert (|reports| + 1) * batchSize == |reports| * batchSize + batchSize;
  }

  lemma OneMoreReport(reports: seq<nat>, pending: nat, n: nat, batchSize: nat)
    requires Reported(reports, pending, batchSize) && n == Min(batchSize, Left(pending, |reports| * batchSize))
    ensures Reported(reports + [n], pending, batchSize)
  {
  }

  lemma DrainsJoin(o: Outbox, drained: seq<RowId>, before: Outbox, rows: seq<RowId>, after: Outbox)
    requires Drains(o, drained, before) && Drains(before, rows, after)
    ensures Drains(o, drained + rows, after)
  {
    assert Elements(drained + rows) == Elements(drained) + Elements(rows);
    assert (o.topic + drained) + rows == o.topic + (drained + rows);
  }

  lemma BatchesJoin(o: Outbox, first: seq<RowId>, taken: nat, o': Outbox, next: seq<RowId>, limit: nat)
    requires o.passes == map[] && o'.passes == map[] && Pending(o') == Pending(o) - Elements(first)
    requires IsBatch(o, first, taken) && IsBatch(o', next, limit)
    ensures IsBatch(o, first + next, taken + limit)
  {
    assert Locked(o) == {} && Locked(o') == {};
    var both := first + next;
    forall i, j | 0 <= i < j < |both| ensures both[i] < both[j] {
      if i < |first| <= j {
        assert first[i] in first && next[j - |first|] in next;
        assert next[j - |first|] in Pending(o');
      }
    }
  }

  lemma CeilReaches(pending: nat, batchSize: nat, turns: nat)
    requires batchSize >= 1 && turns == (pending + batchSize - 1) / batchSize
    ensures pending <= turns * batchSize
    ensures turns >= 1 ==> (turns - 1) * batchSize < pending
  {
    assert pending + batchSize - 1 == turns * batchSize + (pending + batchSize - 1) % batchSize;
    assert (turns - 1) * batchSize == turns * batchSize - batchSize;
  }

  lemma EarlierTurn(i: nat, turns: nat, batchSize: nat)
    requires i < turns
    ensures i * batchSize <= (turns - 1) * batchSize
  {
  }

  /** ceil(pending / batchSize) calm calls leave nothing pending, and each of them stamps something. */
  lemma CeilCallsEmptyTheOutbox(o: Outbox, turns: nat, batchSize: nat, reports: seq<nat>, drained: seq<RowId>,
      o': Outbox)
    requires Emptying(o, turns, batchSize, reports, drained, o')
    requires batchSize >= 1 && turns == (|Pending(o)| + batchSize - 1) / batchSize
    ensures Pending(o') == {} && Elements(drained) == Pending(o) && Ascending(drained)
    ensures forall i :: 0 <= i < turns ==> reports[i] >= 1
  {
    hide Pending, IsBatch, Drains, Elements, Reported, Ascending;
    CeilReaches(|Pending(o)|, batchSize, turns);
    DrainedPending(o, drained, o');
    BatchIsPending(o, drained, turns * batchSize);
    assert |Pending(o')| == 0;
    hide Left;
    forall i | 0 <= i < turns ensures reports[i] >= 1 {
      EarlierTurn(i, turns, batchSize);
      LeftPositive(|Pending(o)|, i * batchSize);
      ReportedAt(reports, |Pending(o)|, batchSize, i);
    }
  }

  lemma BatchIsPending(o: Outbox, batch: seq<RowId>, limit: nat)
    requires IsBatch(o, batch, limit)
    ensures Ascending(batch) && Elements(batch) <= Pending(o)
  {
  }

  lemma ReportedAt(reports: seq<nat>, pending: nat, batchSize: nat, i: nat)
    requires Reported(reports, pending, batchSize) && i < |reports|
    ensures reports[i] == Min(batchSize, Left(pending, i * batchSize))
  {
  }

  lemma LeftPositive(count: nat, taken: nat)
    requires taken < count
    ensures Left(count, taken) >= 1
  {
  }
}
