/** libs/go/githubapp: the rate budget, its registry, and the calls that debit and refresh it. */
module Budget {
  import opened Prelude

  /** Instants count nanoseconds, with Go's zero time at 0. */
  const SECOND: int := 1_000_000_000
  const UNIX_EPOCH: Time := 62_135_596_800 * SECOND
  const SAFETY_FLOOR := 50

  type Resource = string

  const REST: Resource := "rest"
  const GRAPHQL: Resource := "graphql"

  datatype Pool = Pool(remaining: int, resetAt: Time, known: bool)

  const UNSEEN := Pool(0, ZERO_TIME, false)

  type Pools = map<Resource, Pool>

  /** get: a resource not seen before has an unknown pool. */
  function PoolOf(pools: Pools, r: Resource): Pool {
    if r in pools then pools[r] else UNSEEN
  }

  /** time.Time.Sub saturates. */
  function Since(a: Time, b: Time): Int64 {
    if a - b >= INT64_LIMIT then INT64_LIMIT - 1
    else if a - b < -INT64_LIMIT then -INT64_LIMIT
    else a - b
  }

  function Unix(seconds: int): Time {
    UNIX_EPOCH + seconds * SECOND
  }

  /** The window a pool was observed in has passed. */
  predicate Elapsed(p: Pool, now: Time) {
    p.known && p.resetAt != ZERO_TIME && now > p.resetAt
  }

  /** The pool tells how much is left at this moment. */
  predicate Watching(p: Pool, now: Time) {
    p.known && !Elapsed(p, now)
  }

  function Charge(cost: int): int {
    if cost < 1 then 1 else cost
  }

  function MayProceed(p: Pool, cost: int, now: Time): bool {
    Watching(p, now) ==> p.remaining - Charge(cost) >= SAFETY_FLOOR
  }

  /** The pool after a Reserve. */
  function Reserved(p: Pool, cost: int, now: Time): Pool {
    if MayProceed(p, cost, now) then Pool(p.remaining - Charge(cost), p.resetAt, Watching(p, now)) else p
  }

  function WaitFor(p: Pool, now: Time): nat {
    var w := Since(p.resetAt, now);
    if w < 0 then 0 else w
  }

  /** The rate headers of a response, where present and numeric. */
  datatype RateHeaders = RateHeaders(remaining: Option<Int64>, reset: Option<Int64>)

  class Budget {
    var pools: Pools

    constructor ()
      ensures pools == map[REST := UNSEEN, GRAPHQL := UNSEEN]
    {
      pools := map[REST := UNSEEN, GRAPHQL := UNSEEN];
    }

    method Get(r: Resource) returns (p: Pool)
      modifies this`pools
      ensures p == PoolOf(old(pools), r) && pools == old(pools)[r := p]
    {
      if r !in pools {
        pools := pools[r := UNSEEN];
      }
      p := pools[r];
    }

    /** Whether a call may go ahead now, and if not how long until the window resets. */
    method Reserve(r: Resource, cost: int, now: Time) returns (wait: nat, ok: bool)
      modifies this`pools
      ensures var p := PoolOf(old(pools), r);
              && ok == MayProceed(p, cost, now)
              && pools == old(pools)[r := Reserved(p, cost, now)]
              && wait == if ok then 0 else WaitFor(p, now)
      ensures var p, charge := PoolOf(old(pools), r), if cost < 1 then 1 else cost;
              var inWindow := p.known && (p.resetAt == ZERO_TIME || now <= p.resetAt);
              && (ok <==> inWindow ==> p.remaining - charge >= 50)
              && pools[r].resetAt == p.resetAt && (ok ==> pools[r].remaining == p.remaining - charge)
              && (ok ==> (pools[r].known <==> inWindow)) && (!ok ==> pools[r] == p)
              && (!ok && p.resetAt <= now ==> wait == 0)
              && (!ok && now < p.resetAt ==> wait == if p.resetAt - now < INT64_LIMIT then p.resetAt - now
                                                     else INT64_LIMIT - 1)
    {
      var charge := cost;
      if charge < 1 {
        charge := 1;
      }
      var p := Get(r);
      if p.known && p.resetAt != ZERO_TIME && now > p.resetAt {
        p := p.(known := false);
      }
      if !p.known {
        pools := pools[r := p.(remaining := p.remaining - charge)];
        return 0, true;
      }
      if p.remaining - charge < SAFETY_FLOOR {
        var w := Since(p.resetAt, now);
        if w < 0 {
          w := 0;
        }
        return w, false;
      }
      pools := pools[r := p.(remaining := p.remaining - charge)];
      return 0, true;
    }

    method Set(r: Resource, remaining: int, resetAt: Time)
      modifies this`pools
      ensures pools == old(pools)[r := Pool(remaining, resetAt, true)]
    {
      var p := Get(r);
      p := p.(remaining := remaining);
      p := p.(resetAt := resetAt);
      p := p.(known := true);
      pools := pools[r := p];
    }

    /** Both headers, or nothing happens. */
    method Observe(h: RateHeaders)
      modifies this`pools
      ensures pools == if h.remaining.Some? && h.reset.Some?
                       then old(pools)[REST := Pool(h.remaining.value, Unix(h.reset.value), true)] else old(pools)
      // The header counts seconds from 1970, the pool nanoseconds from the year 1.
      ensures h.remaining.Some? && h.reset.Some? ==>
                pools[REST].resetAt == (62_135_596_800 + h.reset.value) * 1_000_000_000
    {
      if h.remaining.None? || h.reset.None? {
        return;
      }
      Set(REST, h.remaining.value, Unix(h.reset.value));
    }

    method ObserveGraphQL(remaining: int, resetAt: Time)
      modifies this`pools
      ensures pools == old(pools)[GRAPHQL := Pool(remaining, resetAt, true)]
    {
      Set(GRAPHQL, remaining, resetAt);
    }

    method Remaining(r: Resource) returns (remaining: int, known: bool)
      modifies this`pools
      ensures remaining == PoolOf(old(pools), r).remaining && known == PoolOf(old(pools), r).known
      ensures forall q :: PoolOf(pools, q) == PoolOf(old(pools), q)
    {
      var p := Get(r);
      return p.remaining, p.known;
    }
  }

  /** One budget per installation, for good. */
  class Registry {
    var budgets: map<Int64, Budget>

    ghost predicate Valid()
      reads this
    {
      forall i, j :: i in budgets && j in budgets && budgets[i] == budgets[j] ==> i == j
    }

    constructor ()
      ensures Valid() && budgets == map[]
    {
      budgets := map[];
    }

    method For(installation: Int64) returns (b: Budget)
      requires Valid()
      modifies this`budgets
      ensures Valid() && budgets.Keys == old(budgets).Keys + {installation} && b == budgets[installation]
      ensures forall i :: i in old(budgets) ==> budgets[i] == old(budgets)[i]
      ensures installation !in old(budgets) ==> fresh(b) && b.pools == map[REST := UNSEEN, GRAPHQL := UNSEEN]
    {
      if installation !in budgets {
        b := new Budget();
        budgets := budgets[installation := b];
      }
      b := budgets[installation];
    }
  }

  /** How a REST call past its reservation goes. */
  datatype Answer = NoToken | NoResponse | Response(headers: RateHeaders)

  /** How a GraphQL call past its reservation goes: any failure before usable data, or data
      with or without a rate block (remaining, resetAt). */
  datatype GraphAnswer = NoData | Data(rate: Option<(int, Time)>)

  datatype CallError = RateLimited(resource: Resource, retryAfter: nat) | TokenFailed | TransportFailed | QueryFailed

  class Client {
    const budgets: Registry

    constructor (budgets: Registry)
      ensures this.budgets == budgets
    {
      this.budgets := budgets;
    }

    /** Do: reserve, authenticate, send, observe. A call that fails after its reservation keeps
        the debit; only a response replaces it. Returns the budget it used. */
    method Do(installation: Int64, cost: int, now: Time, answer: Answer)
      returns (r: Result<RateHeaders, CallError>, budget: Budget)
      requires budgets.Valid()
      modifies budgets`budgets, set i | i in budgets.budgets :: budgets.budgets[i]
      ensures budgets.Valid() && installation in budgets.budgets && budget == budgets.budgets[installation]
      ensures installation in old(budgets.budgets) ==> budget == old(budgets.budgets)[installation]
      ensures var before := if installation in old(budgets.budgets) then old(budgets.budgets[installation].pools)
                            else map[REST := UNSEEN, GRAPHQL := UNSEEN];
              var p := PoolOf(before, REST);
              if !MayProceed(p, cost, now)
              then r == Err(RateLimited(REST, WaitFor(p, now))) && budget.pools == before[REST := p]
              else match answer
                   case Response(h) =>
                     && r == Ok(h)
                     && budget.pools == before[REST := if h.remaining.Some? && h.reset.Some?
                                                       then Pool(h.remaining.value, Unix(h.reset.value), true)
                                                       else Reserved(p, cost, now)]
                   case _ => r.Err? && !r.error.RateLimited? && budget.pools == before[REST := Reserved(p, cost, now)]
    {
      budget := budgets.For(installation);
      var wait, ok := budget.Reserve(REST, cost, now);
      if !ok {
        return Err(RateLimited(REST, wait)), budget;
      }
      if answer.NoToken? {
        return Err(TokenFailed), budget;
      }
      if answer.NoResponse? {
        return Err(TransportFailed), budget;
      }
      budget.Observe(answer.headers);
      return Ok(answer.headers), budget;
    }

    /** GraphQL: the same for the other pool; an answer without a rate block, or with errors,
        leaves the debit in place. */
    method GraphQL(installation: Int64, estCost: int, now: Time, answer: GraphAnswer)
      returns (r: Result<(), CallError>, budget: Budget)
      requires budgets.Valid()
      modifies budgets`budgets, set i | i in budgets.budgets :: budgets.budgets[i]
      ensures budgets.Valid() && installation in budgets.budgets && budget == budgets.budgets[installation]
      ensures installation in old(budgets.budgets) ==> budget == old(budgets.budgets)[installation]
      ensures var before := if installation in old(budgets.budgets) then old(budgets.budgets[installation].pools)
                            else map[REST := UNSEEN, GRAPHQL := UNSEEN];
              var p := PoolOf(before, GRAPHQL);
              if !MayProceed(p, estCost, now)
              then r == Err(RateLimited(GRAPHQL, WaitFor(p, now))) && budget.pools == before[GRAPHQL := p]
              else
                && r == (if answer.NoData? then Err(QueryFailed) else Ok(()))
                && budget.pools == before[GRAPHQL := if answer.Data? && answer.rate.Some?
                                                     then Pool(answer.rate.value.0, answer.rate.value.1, true)
                                                     else Reserved(p, estCost, now)]
    {
      budget := budgets.For(installation);
      var wait, ok := budget.Reserve(GRAPHQL, estCost, now);
      if !ok {
        return Err(RateLimited(GRAPHQL, wait)), budget;
      }
      if answer.NoData? {
        return Err(QueryFailed), budget;
      }
      if answer.rate.Some? {
        budget.ObserveGraphQL(answer.rate.value.0, answer.rate.value.1);
      }
      return Ok(()), budget;
    }
  }

  // ---- what a sequence of reservations does ----

  datatype Call = Call(cost: int, now: Time)

  function After(p: Pool, calls: seq<Call>): Pool {
    if calls == [] then p
    else
      var last := calls[|calls| - 1];
      Reserved(After(p, calls[..|calls| - 1]), last.cost, last.now)
  }

  /** The charges of the calls that were let through. */
  function Granted(p: Pool, calls: seq<Call>): int {
    if calls == [] then 0
    else
      var before, last := calls[..|calls| - 1], calls[|calls| - 1];
      Granted(p, before) + if MayProceed(After(p, before), last.cost, last.now) then Charge(last.cost) else 0
  }

  ghost predicate InWindow(p: Pool, calls: seq<Call>) {
    p.known && (p.resetAt == ZERO_TIME || forall i :: 0 <= i < |calls| ==> calls[i].now <= p.resetAt)
  }

  /** Between two observations in a known window the estimate is the observed value less the
      charges let through, and those never go below the floor. */
  lemma {:induction false} ReservationsConserve(p: Pool, calls: seq<Call>)
    requires InWindow(p, calls)
    ensures After(p, calls) == p.(remaining := p.remaining - Granted(p, calls))
    ensures 0 <= Granted(p, calls) <= if p.remaining > SAFETY_FLOOR then p.remaining - SAFETY_FLOOR else 0
  {
    if calls != [] {
      var before := calls[..|calls| - 1];
      assert forall i :: 0 <= i < |before| ==> before[i] == calls[i];
      ReservationsConserve(p, before);
    }
  }

  /** A call is refused exactly when letting it through would take the grants past the floor;
      the wait is the time to the reset of the observed window, not less than zero. */
  lemma RefusalsAreExact(p: Pool, calls: seq<Call>, call: Call)
    requires InWindow(p, calls + [call])
    ensures MayProceed(After(p, calls), call.cost, call.now)
       <==> Granted(p, calls) + Charge(call.cost) <= p.remaining - SAFETY_FLOOR
    ensures WaitFor(After(p, calls), call.now) == WaitFor(p, call.now)
    ensures call.now <= p.resetAt < call.now + INT64_LIMIT ==> WaitFor(p, call.now) == p.resetAt - call.now
  {
    assert forall i :: 0 <= i < |calls| ==> calls[i] == (calls + [call])[i];
    assert (calls + [call])[|calls|] == call;
    ReservationsConserve(p, calls);
  }

  /** Once the window has passed, every call is let through until the next observation. */
  lemma {:induction false} UnknownLetsAllThrough(p: Pool, calls: seq<Call>, k: nat)
    requires k < |calls| && (!p.known || Elapsed(p, calls[0].now))
    ensures MayProceed(After(p, calls[..k]), calls[k].cost, calls[k].now)
    ensures !After(p, calls[..k + 1]).known
  {
    assert calls[..k + 1][..k] == calls[..k];
    if k > 0 {
      UnknownLetsAllThrough(p, calls, k - 1);
    }
  }
}
