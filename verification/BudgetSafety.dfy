/**
  Whether the safety floor keeps an installation's true quota from being overdrawn
  while calls are in flight: the client's estimate, GitHub's counter, and the calls
  and responses between them, interleaved in any order within one rate window.
 */
module BudgetSafety {
  import opened Prelude
  import opened Budget

  type CallId = nat

  /** A response on its way back: what its call cost and what it says is left. */
  datatype Reply = Reply(cost: nat, remaining: int)

  /** quota: GitHub's count. pool: the client's estimate. pending: calls let through and not yet
      processed. replies: responses since the one observed last, in the order GitHub produced
      them; a lost response is one that is never delivered. */
  datatype State = State(quota: int, pool: Pool, pending: map<CallId, nat>, replies: seq<Reply>)

  datatype Action =
    | Issue(id: CallId, cost: int, now: Time)     // Reserve; the call leaves if it may proceed
    | Process(id: CallId)                         // GitHub serves the call and charges its exact cost
    | Deliver(k: nat)                             // the client observes the k-th response; earlier ones are stale
    | Vanish(id: CallId)                          // the call never reaches GitHub

  ghost function Sum(pending: map<CallId, nat>): nat
    decreases |pending|
  {
    if pending == map[] then 0
    else
      var id :| id in pending;
      assert |pending - {id}| < |pending| by { Smaller(pending, id); }
      pending[id] + Sum(pending - {id})
  }

  lemma Smaller(pending: map<CallId, nat>, id: CallId)
    requires id in pending
    ensures |pending - {id}| < |pending|
  {
    assert (pending - {id}).Keys == pending.Keys - {id};
  }

  /** Any call can be counted first. */
  lemma {:induction false} SumWithout(pending: map<CallId, nat>, id: CallId)
    requires id in pending
    ensures Sum(pending) == pending[id] + Sum(pending - {id})
    decreases |pending|
  {
    var first :| first in pending && Sum(pending) == pending[first] + Sum(pending - {first});
    if first != id {
      Smaller(pending, first);
      SumWithout(pending - {first}, id);
      Smaller(pending, id);
      SumWithout(pending - {id}, first);
      assert pending - {first} - {id} == pending - {id} - {first};
    }
  }

  lemma SumWith(pending: map<CallId, nat>, id: CallId, cost: nat)
    requires id !in pending
    ensures Sum(pending[id := cost]) == Sum(pending) + cost
  {
    SumWithout(pending[id := cost], id);
    assert pending[id := cost] - {id} == pending;
  }

  function Spent(replies: seq<Reply>): nat {
    if replies == [] then 0 else replies[0].cost + Spent(replies[1..])
  }

  predicate Enabled(s: State, a: Action) {
    match a
    case Issue(id, cost, now) =>
      id !in s.pending && (s.pool.resetAt == ZERO_TIME || now <= s.pool.resetAt) && MayProceed(s.pool, cost, now)
    case Process(id) => id in s.pending
    case Deliver(k) => k < |s.replies|
    case Vanish(id) => id in s.pending
  }

  function Step(s: State, a: Action): State {
    if !Enabled(s, a) then s
    else
      match a
      case Issue(id, cost, now) => s.(pool := Reserved(s.pool, cost, now), pending := s.pending[id := Charge(cost)])
      case Process(id) =>
        var cost := s.pending[id];
        s.(quota := s.quota - cost, pending := s.pending - {id}, replies := s.replies + [Reply(cost, s.quota - cost)])
      case Deliver(k) => s.(pool := s.pool.(remaining := s.replies[k].remaining, known := true),
          replies := s.replies[k + 1..])
      case Vanish(id) => s.(pending := s.pending - {id})
  }

  function Run(s: State, acts: seq<Action>): State {
    if acts == [] then s else Step(Run(s, acts[..|acts| - 1]), acts[|acts| - 1])
  }

  /** What is let through and not accounted for by the k-th response. */
  ghost function Outstanding(s: State, k: nat): nat
    requires k <= |s.replies|
  {
    Sum(s.pending) + Spent(s.replies[k..])
  }

  /** Each response tells what was left when its call had been served. */
  ghost predicate ReadingsExact(s: State) {
    forall k :: 0 <= k < |s.replies| ==> s.replies[k].remaining == s.quota + Spent(s.replies[k + 1..])
  }

  ghost predicate Covered(s: State) {
    Sum(s.pending) <= s.quota
  }

  /** A window just observed, with at most `bound` outstanding. */
  ghost predicate JustObserved(s: State, bound: nat) {
    && s.pool.known && ReadingsExact(s) && Covered(s)
    && s.pool.remaining == s.quota + Spent(s.replies) && Outstanding(s, 0) <= bound
  }

  /** At every observation along the run at most `bound` is outstanding. */
  ghost predicate Bounded(s: State, acts: seq<Action>, bound: nat) {
    forall n :: 0 <= n < |acts| && acts[n].Deliver? && acts[n].k < |Run(s, acts[..n]).replies|
                ==> Outstanding(Run(s, acts[..n]), acts[n].k + 1) <= bound
  }

  ghost predicate Inv(s: State) {
    && s.pool.known && ReadingsExact(s) && Covered(s)
    && s.pool.remaining - SAFETY_FLOOR <= s.quota - Sum(s.pending)
  }

  lemma {:induction false} SpentOneMore(replies: seq<Reply>, r: Reply)
    ensures Spent(replies + [r]) == Spent(replies) + r.cost
  {
    if replies == [] {
      assert replies + [r] == [r];
    } else {
      assert (replies + [r])[1..] == replies[1..] + [r];
      SpentOneMore(replies[1..], r);
    }
  }

  lemma ProcessKeepsInv(s: State, id: CallId)
    requires Inv(s) && id in s.pending
    ensures Inv(Step(s, Process(id)))
  {
    SumWithout(s.pending, id);
    var s' := Step(s, Process(id));
    var last := Reply(s.pending[id], s'.quota);
    forall k | 0 <= k < |s'.replies| ensures s'.replies[k].remaining == s'.quota + Spent(s'.replies[k + 1..]) {
      if k < |s.replies| {
        assert s'.replies[k + 1..] == s.replies[k + 1..] + [last];
        SpentOneMore(s.replies[k + 1..], last);
      }
    }
  }

  lemma DeliverKeepsInv(s: State, k: nat)
    requires Inv(s) && k < |s.replies| && Outstanding(s, k + 1) <= SAFETY_FLOOR
    ensures Inv(Step(s, Deliver(k)))
  {
    var s' := Step(s, Deliver(k));
    forall j | 0 <= j < |s'.replies| ensures s'.replies[j].remaining == s'.quota + Spent(s'.replies[j + 1..]) {
      assert s'.replies[j + 1..] == s.replies[k + 1 + j + 1..];
    }
  }

  lemma StepKeepsInv(s: State, a: Action)
    requires Inv(s)
    requires a.Deliver? && a.k < |s.replies| ==> Outstanding(s, a.k + 1) <= SAFETY_FLOOR
    ensures Inv(Step(s, a))
  {
    if Enabled(s, a) {
      match a
      case Issue(id, cost, now) => SumWith(s.pending, id, Charge(cost));
      case Process(id) => ProcessKeepsInv(s, id);
      case Deliver(k) => DeliverKeepsInv(s, k);
      case Vanish(id) => SumWithout(s.pending, id);
    }
  }

  lemma {:induction false} RunKeepsInv(s: State, acts: seq<Action>)
    requires JustObserved(s, SAFETY_FLOOR) && Bounded(s, acts, SAFETY_FLOOR)
    ensures Inv(Run(s, acts))
  {
    if acts == [] {
      assert s.replies[0..] == s.replies;
    } else {
      var before, a := acts[..|acts| - 1], acts[|acts| - 1];
      forall n | 0 <= n < |before| && before[n].Deliver? && before[n].k < |Run(s, before[..n]).replies|
        ensures Outstanding(Run(s, before[..n]), before[n].k + 1) <= SAFETY_FLOOR
      {
        assert before[..n] == acts[..n] && before[n] == acts[n];
      }
      RunKeepsInv(s, before);
      hide Inv, Step;
      StepKeepsInv(Run(s, before), a);
    }
  }

  /** In one known window, with at most the floor outstanding at every observation, what has
      been let through and not served never exceeds GitHub's true remaining quota. */
  lemma FloorSuffices(s: State, acts: seq<Action>)
    requires JustObserved(s, SAFETY_FLOOR) && Bounded(s, acts, SAFETY_FLOOR)
    ensures Covered(Run(s, acts))
  {
    RunKeepsInv(s, acts);
  }

  ghost predicate Safe(bound: nat) {
    forall s, acts :: JustObserved(s, bound) && Bounded(s, acts, bound) ==> Covered(Run(s, acts))
  }

  /** The floor is exactly what may be outstanding at an observation: one more is too much. */
  lemma FloorIsExact(bound: nat)
    ensures Safe(bound) <==> bound <= SAFETY_FLOOR
  {
    if bound <= SAFETY_FLOOR {
      forall s, acts | JustObserved(s, bound) && Bounded(s, acts, bound) ensures Covered(Run(s, acts)) {
        FloorSuffices(s, acts);
      }
    } else {
      var s, acts := Overdraw();
    }
  }

  // ---- one more than the floor ----

  const RESET: Time := Unix(3600)
  const DURING: Time := Unix(0)

  /** Calls of the usual cost, with consecutive ids. */
  function Issues(from: CallId, n: nat): seq<Action> {
    if n == 0 then [] else Issues(from, n - 1) + [Issue(from + n - 1, 1, DURING)]
  }

  function InFlight(pending: map<CallId, nat>, from: CallId, n: nat): map<CallId, nat> {
    if n == 0 then pending else InFlight(pending, from, n - 1)[from + n - 1 := 1]
  }

  lemma {:induction false} InFlightAdds(pending: map<CallId, nat>, from: CallId, n: nat)
    requires forall id :: id in pending ==> id < from
    ensures forall id :: id in InFlight(pending, from, n) <==> id in pending || from <= id < from + n
    ensures Sum(InFlight(pending, from, n)) == Sum(pending) + n
  {
    if n > 0 {
      InFlightAdds(pending, from, n - 1);
      SumWith(InFlight(pending, from, n - 1), from + n - 1, 1);
    }
  }

  lemma OneIsLetThrough(s: State, id: CallId)
    requires s.pool.known && s.pool.resetAt == RESET && s.pool.remaining > SAFETY_FLOOR && id !in s.pending
    ensures Step(s, Issue(id, 1, DURING))
         == s.(pool := s.pool.(remaining := s.pool.remaining - 1), pending := s.pending[id := 1])
  {
  }

  lemma {:induction false} IssuesAreLetThrough(s: State, before: seq<Action>, from: CallId, n: nat)
    requires Run(s, before).pool.known && Run(s, before).pool.resetAt == RESET
    requires Run(s, before).pool.remaining - n >= SAFETY_FLOOR
    requires forall id :: id in Run(s, before).pending ==> id < from
    ensures Run(s, before + Issues(from, n))
         == Run(s, before).(pool := Run(s, before).pool.(remaining := Run(s, before).pool.remaining - n),
                            pending := InFlight(Run(s, before).pending, from, n))
  {
    hide Run, Step;
    var r := Run(s, before);
    if n == 0 {
      assert before + [] == before;
    } else {
      IssuesAreLetThrough(s, before, from, n - 1);
      var issue := Issue(from + n - 1, 1, DURING);
      assert before + Issues(from, n) == before + Issues(from, n - 1) + [issue];
      RunOn(s, before + Issues(from, n - 1), issue);
      InFlightAdds(r.pending, from, n - 1);
      OneIsLetThrough(Run(s, before + Issues(from, n - 1)), from + n - 1);
    }
  }

  /** Only calls are issued, so nothing is observed. */
  lemma {:induction false} IssuesOnly(from: CallId, n: nat)
    ensures |Issues(from, n)| == n && forall i :: 0 <= i < n ==> Issues(from, n)[i].Issue?
  {
    if n > 0 {
      IssuesOnly(from, n - 1);
    }
  }

  lemma RunOn(s: State, acts: seq<Action>, a: Action)
    ensures Run(s, acts + [a]) == Step(Run(s, acts), a)
  {
    assert (acts + [a])[..|acts|] == acts;
  }

  const IDLE := State(102, Pool(102, RESET, true), map[], [])

  /** The calls of the first burst that are still under way once the first has been served. */
  function StillOut(): map<CallId, nat> {
    InFlight(map[], 0, 52) - {0}
  }

  /** 52 calls leave the idle window and one is served; then its response is observed. */
  function Served(): seq<Action> {
    Issues(0, 52) + [Process(0)]
  }

  function FirstBurst(): seq<Action> {
    Served() + [Deliver(0)]
  }

  lemma StillOutSum()
    ensures Sum(StillOut()) == 51 && forall id :: id in StillOut() ==> id < 52
    ensures 0 in InFlight(map[], 0, 52) && InFlight(map[], 0, 52)[0] == 1
  {
    hide InFlight;
    InFlightAdds(map[], 0, 52);
    FirstIsOne(52);
    SumWithout(InFlight(map[], 0, 52), 0);
  }

  lemma ServedRuns()
    ensures Run(IDLE, Served()) == State(101, Pool(50, RESET, true), StillOut(), [Reply(1, 101)])
  {
    hide Issues, InFlight;
    assert [] + Issues(0, 52) == Issues(0, 52);
    IssuesAreLetThrough(IDLE, [], 0, 52);
    StillOutSum();
    RunOn(IDLE, Issues(0, 52), Process(0));
  }

  lemma FirstBurstRuns()
    ensures Run(IDLE, FirstBurst()) == State(101, Pool(101, RESET, true), StillOut(), [])
  {
    hide Run, Served, StillOut;
    ServedRuns();
    RunOn(IDLE, Served(), Deliver(0));
    assert [Reply(1, 101)][1..] == [];
  }

  lemma {:induction false} FirstIsOne(n: nat)
    requires n > 0
    ensures 0 in InFlight(map[], 0, n) && InFlight(map[], 0, n)[0] == 1
  {
    if n > 1 {
      FirstIsOne(n - 1);
    }
  }

  lemma OneObservation(tail: seq<Action>)
    requires forall i :: 0 <= i < |tail| ==> !tail[i].Deliver?
    ensures Bounded(IDLE, FirstBurst() + tail, SAFETY_FLOOR + 1)
  {
    hide Run, Issues, StillOut, Sum;
    IssuesOnly(0, 52);
    StillOutSum();
    ServedRuns();
    var acts := FirstBurst() + tail;
    forall n | 0 <= n < |acts| && acts[n].Deliver? && acts[n].k < |Run(IDLE, acts[..n]).replies|
      ensures Outstanding(Run(IDLE, acts[..n]), acts[n].k + 1) <= SAFETY_FLOOR + 1
    {
      assert n == 53 && acts[n] == Deliver(0);
      assert acts[..53] == Served();
      assert [Reply(1, 101)][1..] == [];
    }
  }

  lemma SecondBurstRuns()
    ensures Run(IDLE, FirstBurst() + Issues(52, 51)).quota == 101
    ensures Sum(Run(IDLE, FirstBurst() + Issues(52, 51)).pending) == 102
  {
    hide Run, Issues, StillOut, Sum, FirstBurst, InFlight;
    StillOutSum();
    FirstBurstRuns();
    IssuesAreLetThrough(IDLE, FirstBurst(), 52, 51);
    InFlightAdds(StillOut(), 52, 51);
  }

  /** From an idle window of 102: 52 calls leave, one is served and its response observed while
      the 51 others are under way. The estimate is then 101, so 51 more calls of cost 1 leave, and
      102 are on their way to a quota of 101. */
  lemma Overdraw() returns (s: State, acts: seq<Action>)
    ensures s == IDLE
    ensures forall n :: 0 <= n < |acts| && acts[n].Issue? ==> acts[n].cost == 1 && acts[n].now <= RESET
    ensures JustObserved(s, SAFETY_FLOOR + 1) && Bounded(s, acts, SAFETY_FLOOR + 1) && !Covered(Run(s, acts))
  {
    hide Run, Issues;
    s, acts := IDLE, FirstBurst() + Issues(52, 51);
    SecondBurstRuns();
    IssuesOnly(52, 51);
    OneObservation(Issues(52, 51));
    IssueCosts(0, 52);
    IssueCosts(52, 51);
    hide Bounded;
  }

  lemma {:induction false} IssueCosts(from: CallId, n: nat)
    ensures forall i :: 0 <= i < |Issues(from, n)| ==> Issues(from, n)[i].Issue? && Issues(from, n)[i].cost == 1
                                                       && Issues(from, n)[i].now <= RESET
  {
    if n > 0 {
      IssueCosts(from, n - 1);
    }
  }
}
