/**
  libs/go/githubapp/token.go as an imperative program over the shared token source:
  each lock operation and each access under a lock is a step of TokenCache, and
  between any two of them other callers take steps of their own.
 */
module TokenSource {
  import opened Prelude
  import T = TokenCache

  /** Whose step an action is; the clock is nobody's. */
  predicate IsOf(a: T.Action, id: T.CallerId) {
    match a
    case Call(caller, _) => caller == id
    case Go(caller, _) => caller == id
    case Tick(_) => false
  }

  /** What GitHub answers to a mint, and what the others and the clock do before the k-th step. */
  datatype Env = Env(answer: T.MintAnswer, others: nat -> seq<T.Action>)

  ghost predicate Extends(earlier: seq<T.Action>, later: seq<T.Action>) {
    earlier <= later
  }

  lemma RunOneMore(acts: seq<T.Action>, a: T.Action)
    ensures T.Run(acts + [a]) == T.Step(T.Run(acts), a)
  {
    assert (acts + [a])[..|acts|] == acts;
  }

  /** A caller stays where it is, and its installation keeps its lock, while others act. */
  ghost predicate Undisturbed(s: T.State, s': T.State, id: T.CallerId) {
    && (id in s.callers <==> id in s'.callers)
    && (id in s.callers ==> s'.callers[id] == s.callers[id])
    && (forall i :: i in s.single ==> i in s'.single && s'.single[i] == s.single[i])
  }

  lemma OthersDoNotDisturb(s: T.State, a: T.Action, id: T.CallerId)
    requires !IsOf(a, id)
    ensures Undisturbed(s, T.Step(s, a), id)
  {
    if a.Go? && a.id in s.callers {
      T.AdvanceMovesMu(s, a.id, a.answer);
      T.AdvanceMovesSingle(s, a.id, a.answer);
      hide T.Advance, T.MuMove;
    }
  }

  lemma ExtendsOn(earlier: seq<T.Action>, middle: seq<T.Action>, later: seq<T.Action>)
    requires Extends(earlier, middle) && Extends(middle, later)
    ensures Extends(earlier, later)
  {
  }

  lemma ExtendsItself(acts: seq<T.Action>)
    ensures Extends(acts, acts)
  {
  }

  /** The cache holds a token, and not an empty one, with more than 60 seconds to live. */
  ghost predicate IsLive(s: T.State, i: T.Installation) {
    i in s.cache && s.cache[i].text != "" && s.now + 60_000_000_000 < s.cache[i].expiresAt
  }

  lemma HitsAreLive(s: T.State, i: T.Installation)
    ensures T.Hit(s.cache, i, s.now) == if IsLive(s, i) then Some(s.cache[i]) else None
  {
  }

  /** In this state the caller, as it was but for the lock it took, reads the cache and finds r. */
  ghost predicate Looks(s: T.State, id: T.CallerId, was: T.Caller, r: Option<T.Token>) {
    && id in s.callers && s.callers[id].installation == was.installation
    && s.callers[id].at == (if was.at.EnterCached? then T.InCached else T.InRecheck)
    && r == if IsLive(s, was.installation) then Some(s.cache[was.installation]) else None
  }

  /** What GitHub's answer brings: its token for the installation, unless it is an error or empty. */
  ghost predicate IsMinted(r: Option<T.Token>, i: T.Installation, answer: T.MintAnswer) {
    match r
    case None => answer.None? || answer.value.0 == ""
    case Some(t) => answer == Some((t.text, t.expiresAt)) && t.text != "" && t.issuedFor == i
  }

  class TokenSource {
    var world: T.State
    ghost var trace: seq<T.Action>   // every step taken so far, by anyone

    ghost predicate Valid()
      reads this
    {
      world == T.Run(trace)
    }

    constructor ()
      ensures Valid() && world == T.INIT
    {
      world, trace := T.INIT, [];
    }

    /** One step on the shared source. */
    method Act(a: T.Action)
      requires Valid()
      modifies this
      ensures Valid() && world == T.Step(old(world), a) && Extends(old(trace), trace)
    {
      hide T.Step;
      RunOneMore(trace, a);
      world := T.Step(world, a);
      trace := trace + [a];
    }

    /** The others act, and go on until the caller has no lock to wait for. */
    method Await(id: T.CallerId, acts: seq<T.Action>, answer: T.MintAnswer)
      requires Valid() && id in world.callers && !world.callers[id].at.Finished?
      modifies this
      ensures Valid() && Extends(old(trace), trace) && Undisturbed(old(world), world, id)
      ensures id in world.callers && !T.Waits(world, id)
    {
      hide T.Step, T.Run, T.Waits, T.LocksInv, T.LogInv;
      var i := 0;
      while i < |acts|
        invariant 0 <= i <= |acts|
        invariant Valid() && Extends(old(trace), trace) && Undisturbed(old(world), world, id)
      {
        if !IsOf(acts[i], id) {
          OthersDoNotDisturb(world, acts[i], id);
          Act(acts[i]);
        }
        i := i + 1;
      }
      while T.Waits(world, id)
        invariant Valid() && Extends(old(trace), trace) && Undisturbed(old(world), world, id)
        decreases T.Work(world.callers)
      {
        T.RunKeepsInv(trace);
        HolderMoves(world, id);
        var mover := if world.mu.Some? then world.mu.value else world.held[world.callers[id].lock];
        MoveWorksOff(world, mover, answer);
        OthersDoNotDisturb(world, T.Go(mover, answer), id);
        Act(T.Go(mover, answer));
      }
    }

    /** One step of this caller, once the others let it. seen: the steps before it. */
    method Go(id: T.CallerId, acts: seq<T.Action>, answer: T.MintAnswer) returns (ghost seen: seq<T.Action>)
      requires Valid() && id in world.callers && !world.callers[id].at.Finished?
      modifies this
      ensures Valid() && Extends(old(trace), seen) && Extends(seen, trace) && Undisturbed(old(world), T.Run(seen), id)
      ensures id in T.Run(seen).callers && !T.Waits(T.Run(seen), id) && world == T.Advance(T.Run(seen), id, answer)
    {
      hide T.Run, T.Advance, T.Waits;
      Await(id, acts, answer);
      seen := trace;
      Act(T.Go(id, answer));
    }

    /** cached: lock mu, look, unlock. seen: the steps before the cache was read. */
    method Cached(id: T.CallerId, k: nat, env: Env) returns (r: Option<T.Token>, ghost seen: seq<T.Action>)
      requires Valid() && id in world.callers
      requires world.callers[id].at.EnterCached? || world.callers[id].at.EnterRecheck?
      modifies this
      ensures Valid() && Extends(old(trace), seen) && Extends(seen, trace) && id in world.callers
      ensures Looks(T.Run(seen), id, old(world).callers[id], r)
      ensures world.callers[id] == old(world).callers[id].(at :=
                if old(world).callers[id].at.EnterCached? then if r.Some? then T.Finished(r) else T.EnterLock
                else if r.Some? then T.Leaving(r) else T.Minting)
      ensures forall i :: i in old(world).single ==> i in world.single && world.single[i] == old(world).single[i]
    {
      hide T.Run, T.Valid;
      seen := Go(id, env.others(k), env.answer);
      ghost var mid := trace;
      ghost var before := seen;
      seen := Go(id, env.others(k + 1), env.answer);
      HitsAreLive(T.Run(seen), old(world).callers[id].installation);
      ExtendsOn(old(trace), before, mid);
      ExtendsOn(old(trace), mid, seen);
      hide Extends;
      var at := world.callers[id].at;
      r := if at.Finished? || at.Leaving? then at.result else None;
    }

    /** installLock: the installation's lock, created on first use and never replaced. */
    method InstallLock(id: T.CallerId, k: nat, env: Env) returns (lock: T.LockId)
      requires Valid() && id in world.callers && world.callers[id].at.EnterLock?
      modifies this
      ensures Valid() && Extends(old(trace), trace) && id in world.callers
      ensures world.callers[id] == old(world).callers[id].(at := T.AwaitInstall, lock := lock)
      ensures forall i :: i in old(world).single ==> i in world.single && world.single[i] == old(world).single[i]
      ensures var i := old(world).callers[id].installation; i in world.single && world.single[i] == lock
    {
      hide T.Run, T.Valid;
      ghost var seen := Go(id, env.others(k), env.answer);
      seen := Go(id, env.others(k + 1), env.answer);
      lock := world.callers[id].lock;
    }

    /** Token. first, second: the steps before the cache was read, without and under the lock. */
    method Token(id: T.CallerId, installation: T.Installation, env: Env)
      returns (r: Option<T.Token>, ghost first: seq<T.Action>, ghost second: seq<T.Action>)
      requires Valid() && id !in world.callers
      modifies this
      ensures Valid() && Extends(old(trace), first) && Extends(first, second) && Extends(second, trace)
      ensures id in world.callers && world.callers[id].installation == installation
      ensures world.callers[id].at == T.Finished(r)
      ensures var s := T.Run(first); id in s.callers && s.callers[id].at.InCached?
      ensures var s, t := T.Run(first), T.Run(second);
              if IsLive(s, installation) then r == Some(s.cache[installation])
              else
                && id in t.callers && t.callers[id].at.InRecheck?
                && if IsLive(t, installation) then r == Some(t.cache[installation])
                   else IsMinted(r, installation, env.answer)
      ensures forall i :: i in old(world).single ==> i in world.single && world.single[i] == old(world).single[i]
    {
      hide T.Run, IsLive, T.Step, Extends;
      ghost var start := trace;
      Call(id, installation);
      ghost var called := trace;
      r, first := Cached(id, 0, env);
      ExtendsOn(start, called, first);
      second := first;
      ExtendsItself(first);
      if r.Some? {
        return;
      }
      ghost var looked := trace;
      r, second := LockAndMint(id, env);
      ExtendsOn(first, looked, second);
    }

    method Call(id: T.CallerId, installation: T.Installation)
      requires Valid() && id !in world.callers
      modifies this
      ensures Valid() && Extends(old(trace), trace) && world == T.Joined(old(world), id, installation)
    {
      Act(T.Call(id, installation));
    }

    /** The installation's lock, looked up and taken. */
    method Acquire(id: T.CallerId, env: Env)
      requires Valid() && id in world.callers && world.callers[id].at.EnterLock?
      modifies this
      ensures Valid() && Extends(old(trace), trace) && id in world.callers
      ensures world.callers[id].installation == old(world).callers[id].installation
      ensures world.callers[id].at.EnterRecheck?
      ensures forall i :: i in old(world).single ==> i in world.single && world.single[i] == old(world).single[i]
    {
      hide T.Run;
      var lock := InstallLock(id, 2, env);
      ghost var seen := Go(id, env.others(4), env.answer);      // lock.Lock()
    }

    /** The rest of Token, after a first look that missed. */
    method LockAndMint(id: T.CallerId, env: Env) returns (r: Option<T.Token>, ghost second: seq<T.Action>)
      requires Valid() && id in world.callers && world.callers[id].at.EnterLock?
      modifies this
      ensures Valid() && Extends(old(trace), second) && Extends(second, trace) && id in world.callers
      ensures world.callers[id].installation == old(world).callers[id].installation
      ensures world.callers[id].at == T.Finished(r)
      ensures var s, i := T.Run(second), old(world).callers[id].installation;
              && id in s.callers && s.callers[id].at.InRecheck?
              && if IsLive(s, i) then r == Some(s.cache[i]) else IsMinted(r, i, env.answer)
      ensures forall i :: i in old(world).single ==> i in world.single && world.single[i] == old(world).single[i]
    {
      hide T.Run, IsLive, IsMinted, Extends;
      ghost var start := trace;
      Acquire(id, env);
      ghost var entered := trace;
      r, second := Cached(id, 5, env);
      ExtendsOn(start, entered, second);
      ghost var looked := trace;
      if r.None? {
        r := Mint(id, 7, env);
      }
      ghost var minted := trace;
      ExtendsItself(looked);
      ExtendsOn(second, looked, minted);
      ghost var seen := Go(id, env.others(10), env.answer);     // the deferred lock.Unlock()
      ExtendsOn(second, minted, seen);
      ExtendsOn(second, seen, trace);
    }

    /** mint, and store under mu what it brought. */
    method Mint(id: T.CallerId, k: nat, env: Env) returns (r: Option<T.Token>)
      requires Valid() && id in world.callers && world.callers[id].at.Minting?
      modifies this
      ensures Valid() && Extends(old(trace), trace) && id in world.callers
      ensures IsMinted(r, old(world).callers[id].installation, env.answer)
      ensures world.callers[id] == old(world).callers[id].(at := T.Leaving(r))
      ensures r.Some? ==> var i := old(world).callers[id].installation; i in world.cache && world.cache[i] == r.value
      ensures forall i :: i in old(world).single ==> i in world.single && world.single[i] == old(world).single[i]
    {
      hide T.Run, T.Valid;
      ghost var seen := Go(id, env.others(k), env.answer);
      if world.callers[id].at.Leaving? {
        return None;
      }
      r := Some(world.callers[id].at.token);
      seen := Go(id, env.others(k + 1), env.answer);
      seen := Go(id, env.others(k + 2), env.answer);
    }
  }

  /** Whoever holds what a waiting caller waits for can move, and is somebody else. */
  lemma HolderMoves(s: T.State, id: T.CallerId)
    requires T.LocksInv(s) && id in s.callers && T.Waits(s, id) && !s.callers[id].at.Finished?
    ensures s.mu.None? ==> s.callers[id].lock in s.held
    ensures var mover := if s.mu.Some? then s.mu.value else s.held[s.callers[id].lock];
            mover in s.callers && !T.Waits(s, mover) && mover != id
  {
    hide T.TokensOk, T.SingleOk;
  }

  lemma MoveWorksOff(s: T.State, mover: T.CallerId, answer: T.MintAnswer)
    requires mover in s.callers && !T.Waits(s, mover)
    ensures T.Work(T.Step(s, T.Go(mover, answer)).callers) < T.Work(s.callers)
  {
    T.NotWaitingMoves(s, mover, answer);
    T.AdvanceMovesMu(s, mover, answer);
    hide T.Advance, T.Work, T.Rank, T.Waits, T.MuMove;
    T.WorkShrinks(s.callers, mover, T.Advance(s, mover, answer).callers[mover]);
  }
}
