/**
  libs/go/githubapp/token.go: double-checked caching of installation tokens under
  two levels of locks, as interleaved steps of any number of callers. A step is one
  lock operation, or what happens between two of them.
 */
module TokenCache {
  import opened Prelude

  type CallerId = nat
  type LockId = nat
  type Installation = Int64

  const EXPIRY_SKEW := 60_000_000_000

  /** issuedFor: the installation whose token endpoint produced it. */
  datatype Token = Token(text: string, expiresAt: Time, issuedFor: Installation)

  predicate Valid(t: Token, now: Time) {
    t.text != "" && now < t.expiresAt - EXPIRY_SKEW
  }

  /** Where a caller is in Token. The states named In.. hold mu; from EnterRecheck to Leaving
      the caller holds the lock of its installation. */
  datatype At =
    | EnterCached | InCached                        // the first look at the cache
    | EnterLock | InLock                            // installLock
    | AwaitInstall                                  // lock.Lock()
    | EnterRecheck | InRecheck                      // the second look
    | Minting
    | EnterStore(token: Token) | InStore(token: Token)
    | Leaving(result: Option<Token>)                // the deferred lock.Unlock()
    | Finished(result: Option<Token>)               // None: mint failed

  datatype Caller = Caller(installation: Installation, lock: LockId, at: At)

  /** What the proofs observe: a locked re-check that missed, and a successful mint. */
  datatype Event = Missed(installation: Installation, now: Time) | Minted(installation: Installation, token: Token)

  datatype State = State(
    now: Time,
    mu: Option<CallerId>,
    held: map<LockId, CallerId>,
    cache: map<Installation, Token>,
    single: map<Installation, LockId>,
    nextLock: LockId,
    callers: map<CallerId, Caller>,
    log: seq<Event>)

  const INIT := State(ZERO_TIME, None, map[], map[], map[], 0, map[], [])

  /** What GitHub answers to a mint: an error, or a text and an expiry. */
  type MintAnswer = Option<(string, Time)>

  /** mint: an empty token in the answer is an error. */
  function Mint(installation: Installation, answer: MintAnswer): Option<Token> {
    if answer.None? || answer.value.0 == "" then None
    else Some(Token(answer.value.0, answer.value.1, installation))
  }

  datatype Action = Call(id: CallerId, installation: Installation) | Go(id: CallerId,
      answer: MintAnswer) | Tick(to: Time)

  predicate HoldsMu(a: At) {
    a.InCached? || a.InLock? || a.InRecheck? || a.InStore?
  }

  predicate HoldsInstall(a: At) {
    a.EnterRecheck? || a.InRecheck? || a.Minting? || a.EnterStore? || a.InStore? || a.Leaving?
  }

  function Move(s: State, id: CallerId, at: At): State
    requires id in s.callers
  {
    s.(callers := s.callers[id := s.callers[id].(at := at)])
  }

  function TakeMu(s: State, id: CallerId, at: At): State
    requires id in s.callers
  {
    if s.mu.None? then Move(s, id, at).(mu := Some(id)) else s
  }

  function LeaveMu(s: State, id: CallerId, at: At): State
    requires id in s.callers
  {
    Move(s, id, at).(mu := None)
  }

  /** cached: a valid token, if the cache has one. */
  function Hit(cache: map<Installation, Token>, installation: Installation, now: Time): Option<Token> {
    if installation in cache && Valid(cache[installation], now) then Some(cache[installation]) else None
  }

  function Cached(s: State, installation: Installation): Option<Token> {
    Hit(s.cache, installation, s.now)
  }

  function Advance(s: State, id: CallerId, answer: MintAnswer): (s': State)
    requires id in s.callers
    ensures id in s'.callers
  {
    var c := s.callers[id];
    match c.at
    case EnterCached => TakeMu(s, id, InCached)
    case InCached =>
      var hit := Cached(s, c.installation);
      LeaveMu(s, id, if hit.Some? then Finished(hit) else EnterLock)
    case EnterLock => TakeMu(s, id, InLock)
    case InLock =>
      var lock := if c.installation in s.single then s.single[c.installation] else s.nextLock;
      s.(callers := s.callers[id := c.(lock := lock, at := AwaitInstall)], mu := None,
         single := s.single[c.installation := lock],
         nextLock := if c.installation in s.single then s.nextLock else s.nextLock + 1)
    case AwaitInstall =>
      if c.lock in s.held then s else Move(s, id, EnterRecheck).(held := s.held[c.lock := id])
    case EnterRecheck => TakeMu(s, id, InRecheck)
    case InRecheck =>
      var hit := Cached(s, c.installation);
      if hit.Some? then LeaveMu(s, id, Leaving(hit))
      else LeaveMu(s, id, Minting).(log := s.log + [Missed(c.installation, s.now)])
    case Minting =>
      var minted := Mint(c.installation, answer);
      if minted.None? then Move(s, id, Leaving(None))
      else Move(s, id, EnterStore(minted.value)).(log := s.log + [Minted(c.installation, minted.value)])
    case EnterStore(token) => TakeMu(s, id, InStore(token))
    case InStore(token) => LeaveMu(s, id, Leaving(Some(token))).(cache := s.cache[c.installation := token])
    case Leaving(result) => Move(s, id, Finished(result)).(held := s.held - {c.lock})
    case Finished(_) => s
  }

  function Joined(s: State, id: CallerId, installation: Installation): State {
    s.(callers := s.callers[id := Caller(installation, 0, EnterCached)])
  }

  function Step(s: State, a: Action): State {
    match a
    case Call(id, installation) =>
      if id in s.callers then s else Joined(s, id, installation)
    case Go(id, answer) => if id in s.callers then Advance(s, id, answer) else s
    case Tick(to) => if to >= s.now then s.(now := to) else s
  }

  function Run(acts: seq<Action>): State {
    if acts == [] then INIT else Step(Run(acts[..|acts| - 1]), acts[|acts| - 1])
  }

  // ---- locks ----

  ghost predicate MuOk(mu: Option<CallerId>, callers: map<CallerId, Caller>) {
    && (mu.Some? ==> mu.value in callers && HoldsMu(callers[mu.value].at))
    && (forall id :: id in callers && HoldsMu(callers[id].at) ==> mu == Some(id))
  }

  ghost predicate HeldOk(held: map<LockId, CallerId>, callers: map<CallerId, Caller>) {
    && (forall l :: l in held ==>
          held[l] in callers && HoldsInstall(callers[held[l]].at) && callers[held[l]].lock == l)
    && (forall id :: id in callers && HoldsInstall(callers[id].at) ==>
          callers[id].lock in held && held[callers[id].lock] == id)
  }

  /** Each installation has one lock of its own, and whoever uses a lock uses its installation's. */
  ghost predicate SingleOk(single: map<Installation, LockId>, nextLock: LockId, callers: map<CallerId, Caller>) {
    && (forall i :: i in single ==> single[i] < nextLock)
    && (forall i, j :: i in single && j in single && single[i] == single[j] ==> i == j)
    && (forall id :: id in callers && UsesLock(callers[id].at) ==>
          callers[id].installation in single && single[callers[id].installation] == callers[id].lock)
  }

  /** A token with a text, issued for the installation. */
  ghost predicate IsOwn(t: Token, installation: Installation) {
    t.text != "" && t.issuedFor == installation
  }

  ghost predicate TokenOf(a: At, installation: Installation) {
    match a
    case EnterStore(token) => IsOwn(token, installation)
    case InStore(token) => IsOwn(token, installation)
    case Leaving(result) => result.Some? ==> IsOwn(result.value, installation)
    case Finished(result) => result.Some? ==> IsOwn(result.value, installation)
    case _ => true
  }

  ghost predicate TokensOk(cache: map<Installation, Token>, callers: map<CallerId, Caller>) {
    && (forall i :: i in cache ==> IsOwn(cache[i], i))
    && (forall id :: id in callers ==> TokenOf(callers[id].at, callers[id].installation))
  }

  ghost predicate LocksInv(s: State) {
    MuOk(s.mu, s.callers) && HeldOk(s.held, s.callers) && SingleOk(s.single, s.nextLock, s.callers)
    && TokensOk(s.cache, s.callers)
  }

  /** What one step of a caller can do to mu: nothing, take it when free, or give it up. */
  ghost predicate MuMove(mu: Option<CallerId>, mu': Option<CallerId>, id: CallerId, at: At, at': At) {
    || (mu' == mu && HoldsMu(at') == HoldsMu(at))
    || (mu == None && mu' == Some(id) && HoldsMu(at'))
    || (HoldsMu(at) && mu' == None && !HoldsMu(at'))
  }

  ghost predicate HeldMove(held: map<LockId, CallerId>, held': map<LockId, CallerId>, id: CallerId, c: Caller,
      c': Caller) {
    || (held' == held && HoldsInstall(c'.at) == HoldsInstall(c.at) && (HoldsInstall(c.at) ==> c'.lock == c.lock))
    || (c.lock !in held && held' == held[c.lock := id] && HoldsInstall(c'.at) && !HoldsInstall(c.at)
          && c'.lock == c.lock)
    || (HoldsInstall(c.at) && held' == held - {c.lock} && !HoldsInstall(c'.at))
  }

  predicate UsesLock(a: At) {
    a.AwaitInstall? || HoldsInstall(a)
  }

  /** The lock of the installation is used as it is, or looked up, or created. */
  ghost predicate SingleMove(s: State, s': State, c: Caller, c': Caller) {
    || (s'.single == s.single && s'.nextLock == s.nextLock && c'.lock == c.lock && (UsesLock(c'.at) ==> UsesLock(c.at)))
    || (c.installation in s.single && s'.single == s.single && s'.nextLock == s.nextLock
        && c'.lock == s.single[c.installation])
    || (c.installation !in s.single && s'.single == s.single[c.installation := s.nextLock]
        && s'.nextLock == s.nextLock + 1 && c'.lock == s.nextLock)
  }

  ghost predicate CacheMove(s: State, s': State, c: Caller, c': Caller) {
    || s'.cache == s.cache
    || (c.at.InStore? && s'.cache == s.cache[c.installation := c.at.token])
  }

  lemma AdvanceMovesMu(s: State, id: CallerId, answer: MintAnswer)
    requires id in s.callers
    ensures var s' := Advance(s, id, answer);
            && id in s'.callers && s'.callers == s.callers[id := s'.callers[id]]
            && s'.callers[id].installation == s.callers[id].installation
            && MuMove(s.mu, s'.mu, id, s.callers[id].at, s'.callers[id].at)
  {
    hide Cached, HoldsInstall;
    match s.callers[id].at
    case EnterCached =>
    case InCached =>
    case EnterLock =>
    case InLock =>
    case AwaitInstall =>
    case EnterRecheck =>
    case InRecheck =>
    case Minting =>
    case EnterStore(_) =>
    case InStore(_) =>
    case Leaving(_) =>
    case Finished(_) =>
  }

  lemma AdvanceMovesHeld(s: State, id: CallerId, answer: MintAnswer)
    requires id in s.callers
    ensures var s' := Advance(s, id, answer);
            id in s'.callers && HeldMove(s.held, s'.held, id, s.callers[id], s'.callers[id])
  {
    hide Cached, HoldsMu;
    match s.callers[id].at
    case EnterCached =>
    case InCached =>
    case EnterLock =>
    case InLock =>
    case AwaitInstall =>
    case EnterRecheck =>
    case InRecheck =>
    case Minting =>
    case EnterStore(_) =>
    case InStore(_) =>
    case Leaving(_) =>
    case Finished(_) =>
  }

  lemma AdvanceMovesSingle(s: State, id: CallerId, answer: MintAnswer)
    requires id in s.callers
    ensures var s' := Advance(s, id, answer); id in s'.callers && SingleMove(s, s', s.callers[id], s'.callers[id])
  {
    hide Cached, HoldsMu;
    var i := s.callers[id].installation;
    assert i in s.single ==> s.single[i := s.single[i]] == s.single;
    match s.callers[id].at
    case EnterCached =>
    case InCached =>
    case EnterLock =>
    case InLock =>
    case AwaitInstall =>
    case EnterRecheck =>
    case InRecheck =>
    case Minting =>
    case EnterStore(_) =>
    case InStore(_) =>
    case Leaving(_) =>
    case Finished(_) =>
  }

  lemma AdvanceMovesTokens(s: State, id: CallerId, answer: MintAnswer)
    requires id in s.callers && TokensOk(s.cache, s.callers)
    ensures var s' := Advance(s, id, answer);
            && id in s'.callers && CacheMove(s, s', s.callers[id], s'.callers[id])
            && TokenOf(s'.callers[id].at, s.callers[id].installation)
  {
    assert TokenOf(s.callers[id].at, s.callers[id].installation);
    hide HoldsMu, HoldsInstall, Valid;
  }

  lemma MuMoveKeeps(mu: Option<CallerId>, mu': Option<CallerId>, callers: map<CallerId, Caller>, id: CallerId,
      c': Caller)
    requires MuOk(mu, callers) && id in callers && MuMove(mu, mu', id, callers[id].at, c'.at)
    ensures MuOk(mu', callers[id := c'])
  {
    hide HoldsMu;
  }

  lemma HeldMoveKeeps(held: map<LockId, CallerId>, held': map<LockId, CallerId>, callers: map<CallerId, Caller>,
                      id: CallerId, c': Caller)
    requires HeldOk(held, callers) && id in callers && HeldMove(held, held', id, callers[id], c')
    ensures HeldOk(held', callers[id := c'])
  {
    hide HoldsInstall;
  }

  lemma SingleMoveKeeps(s: State, s': State, id: CallerId, c': Caller)
    requires SingleOk(s.single, s.nextLock, s.callers) && id in s.callers
    requires SingleMove(s, s', s.callers[id], c') && c'.installation == s.callers[id].installation
    ensures SingleOk(s'.single, s'.nextLock, s.callers[id := c'])
  {
    hide HoldsInstall;
  }

  lemma TokenMoveKeeps(s: State, s': State, id: CallerId, c': Caller)
    requires TokensOk(s.cache, s.callers) && id in s.callers && CacheMove(s, s', s.callers[id], c')
    requires TokenOf(c'.at, c'.installation)
    ensures TokensOk(s'.cache, s.callers[id := c'])
  {
    assert TokenOf(s.callers[id].at, s.callers[id].installation);
  }

  lemma AdvanceKeepsLocks(s: State, id: CallerId, answer: MintAnswer)
    requires LocksInv(s) && id in s.callers
    ensures LocksInv(Advance(s, id, answer))
  {
    var s' := Advance(s, id, answer);
    AdvanceMovesMu(s, id, answer);
    AdvanceMovesHeld(s, id, answer);
    AdvanceMovesSingle(s, id, answer);
    AdvanceMovesTokens(s, id, answer);
    hide Advance, MuMove, HeldMove, SingleMove, CacheMove, MuOk, HeldOk, SingleOk, TokensOk;
    var c' := s'.callers[id];
    MuMoveKeeps(s.mu, s'.mu, s.callers, id, c');
    HeldMoveKeeps(s.held, s'.held, s.callers, id, c');
    SingleMoveKeeps(s, s', id, c');
    TokenMoveKeeps(s, s', id, c');
  }

  /** The lock of an installation has one holder, so its callers pass it one by one. */
  lemma OneInside(s: State, id: CallerId, other: CallerId)
    requires LocksInv(s) && id in s.callers && other in s.callers
    requires HoldsInstall(s.callers[id].at) && HoldsInstall(s.callers[other].at)
    requires s.callers[id].installation == s.callers[other].installation
    ensures id == other
  {
    hide MuOk, TokensOk, HoldsInstall;
  }

  // ---- mints and re-checks ----

  function LastMinted(log: seq<Event>, i: Installation): Option<Token> {
    if log == [] then None
    else
      var last := log[|log| - 1];
      if last.Minted? && last.installation == i then Some(last.token) else LastMinted(log[..|log| - 1], i)
  }

  /** The last that happened for the installation is a re-check that found the token minted
      last, if any, no longer valid. */
  predicate Cleared(log: seq<Event>, i: Installation) {
    log != [] &&
    var before, last := log[..|log| - 1], log[|log| - 1];
    if last.installation != i then Cleared(before, i)
    else last.Missed? && (LastMinted(before, i).Some? ==> !Valid(LastMinted(before, i).value, last.now))
  }

  ghost predicate WellLogged(log: seq<Event>) {
    forall j :: 0 <= j < |log| && log[j].Minted? ==> Cleared(log[..j], log[j].installation)
  }

  /** The token a caller has minted and not stored yet. */
  function Carried(a: At): Option<Token> {
    if a.EnterStore? || a.InStore? then Some(a.token) else None
  }

  /** The installation's lock is held by a caller about to store this token. */
  ghost predicate InTransit(s: State, i: Installation, t: Token) {
    && i in s.single && s.single[i] in s.held && s.held[s.single[i]] in s.callers
    && Carried(s.callers[s.held[s.single[i]]].at) == Some(t)
  }

  ghost predicate LastMintKnown(s: State) {
    forall i :: LastMinted(s.log, i).Some? ==>
      (i in s.cache && s.cache[i] == LastMinted(s.log, i).value) || InTransit(s, i, LastMinted(s.log, i).value)
  }

  ghost predicate CallersLogged(callers: map<CallerId, Caller>, log: seq<Event>) {
    && (forall id :: id in callers && callers[id].at.Minting? ==> Cleared(log, callers[id].installation))
    && (forall id :: id in callers && Carried(callers[id].at).Some? ==>
          LastMinted(log, callers[id].installation) == Carried(callers[id].at))
  }

  ghost predicate LogInv(s: State) {
    WellLogged(s.log) && LastMintKnown(s) && CallersLogged(s.callers, s.log)
  }

  lemma LogOneMore(log: seq<Event>, e: Event, i: Installation)
    ensures LastMinted(log + [e], i) == if e.Minted? && e.installation == i then Some(e.token) else LastMinted(log, i)
    ensures e.installation != i ==> Cleared(log + [e], i) == Cleared(log, i)
    ensures e.Missed? && e.installation == i ==>
              Cleared(log + [e], i) == (LastMinted(log, i).Some? ==> !Valid(LastMinted(log, i).value, e.now))
  {
    assert (log + [e])[..|log|] == log;
  }

  lemma WellLoggedOneMore(log: seq<Event>, e: Event)
    requires WellLogged(log) && (e.Minted? ==> Cleared(log, e.installation))
    ensures WellLogged(log + [e])
  {
    hide Cleared;
    forall j | 0 <= j < |log + [e]| && (log + [e])[j].Minted?
      ensures Cleared((log + [e])[..j], (log + [e])[j].installation)
    {
      assert (log + [e])[..j] == log[..j];
      if j == |log| {
        assert log[..j] == log;
      }
    }
  }

  /** A step that logs nothing, stores nothing and neither starts a mint nor drops a token. */
  lemma QuietKeepsLog(s: State, s': State, id: CallerId, c': Caller)
    requires LocksInv(s) && LogInv(s) && id in s.callers && s'.callers == s.callers[id := c']
    requires s'.log == s.log && s'.cache == s.cache && c'.installation == s.callers[id].installation
    requires Carried(c'.at) == Carried(s.callers[id].at) && (c'.at.Minting? ==> s.callers[id].at.Minting?)
    requires HeldMove(s.held, s'.held, id, s.callers[id], c') && SingleMove(s, s', s.callers[id], c')
    ensures LogInv(s')
  {
    hide MuOk, TokensOk, LastMinted, Cleared, WellLogged;
    forall i | LastMinted(s.log, i).Some? && InTransit(s, i, LastMinted(s.log, i).value)
      ensures InTransit(s', i, LastMinted(s.log, i).value)
    {
      TransitStays(s, s', id, c', i, LastMinted(s.log, i).value);
    }
  }

  lemma TransitStays(s: State, s': State, id: CallerId, c': Caller, i: Installation, t: Token)
    requires LocksInv(s) && id in s.callers && s'.callers == s.callers[id := c']
    requires Carried(c'.at) == Carried(s.callers[id].at)
    requires HeldMove(s.held, s'.held, id, s.callers[id], c') && SingleMove(s, s', s.callers[id], c')
    requires InTransit(s, i, t)
    ensures InTransit(s', i, t)
  {
    hide MuOk, TokensOk;
  }

  lemma MissKeepsLog(s: State, id: CallerId, answer: MintAnswer)
    requires LocksInv(s) && LogInv(s) && id in s.callers && s.callers[id].at.InRecheck?
    requires Cached(s, s.callers[id].installation).None?
    ensures LogInv(Advance(s, id, answer))
  {
    var i, s' := s.callers[id].installation, Advance(s, id, answer);
    var e := Missed(i, s.now);
    MissedTokenInvalid(s, id);
    WellLoggedOneMore(s.log, e);
    forall j ensures LastMinted(s'.log, j) == LastMinted(s.log, j) && (j != i
        ==> Cleared(s'.log, j) == Cleared(s.log, j)) {
      LogOneMore(s.log, e, j);
    }
    LogOneMore(s.log, e, i);
    forall other | other in s.callers && other != id && s.callers[other].at.Minting?
      ensures s.callers[other].installation != i
    {
      if s.callers[other].installation == i {
        OneInside(s, id, other);
      }
    }
    hide LastMinted, Cleared, WellLogged, LocksInv;
  }

  lemma MissedTokenInvalid(s: State, id: CallerId)
    requires LocksInv(s) && LogInv(s) && id in s.callers && s.callers[id].at.InRecheck?
    requires Cached(s, s.callers[id].installation).None?
    ensures var last := LastMinted(s.log, s.callers[id].installation); last.Some? ==> !Valid(last.value, s.now)
  {
    hide MuOk, TokensOk, LastMinted, Cleared, WellLogged, Valid, CallersLogged;
  }

  lemma MintLogs(log: seq<Event>, i: Installation, token: Token)
    ensures forall j :: LastMinted(log + [Minted(i, token)], j) == if j == i then Some(token) else LastMinted(log, j)
    ensures forall j :: j != i ==> Cleared(log + [Minted(i, token)], j) == Cleared(log, j)
  {
    hide LastMinted, Cleared;
    forall j ensures LastMinted(log + [Minted(i, token)], j) == (if j == i then Some(token) else LastMinted(log, j))
      ensures j != i ==> Cleared(log + [Minted(i, token)], j) == Cleared(log, j)
    {
      LogOneMore(log, Minted(i, token), j);
    }
  }

  lemma NobodyElseInside(s: State, id: CallerId)
    requires LocksInv(s) && id in s.callers && HoldsInstall(s.callers[id].at)
    ensures forall other :: other in s.callers && other != id && HoldsInstall(s.callers[other].at) ==>
              s.callers[other].installation != s.callers[id].installation
  {
    hide LocksInv, HoldsInstall;
    forall other | other in s.callers && other != id && HoldsInstall(s.callers[other].at)
      ensures s.callers[other].installation != s.callers[id].installation
    {
      if s.callers[other].installation == s.callers[id].installation {
        OneInside(s, id, other);
      }
    }
  }

  lemma MintKeepsLog(s: State, id: CallerId, answer: MintAnswer)
    requires LocksInv(s) && LogInv(s) && id in s.callers && s.callers[id].at.Minting?
    requires Mint(s.callers[id].installation, answer).Some?
    ensures LogInv(Advance(s, id, answer))
  {
    var i, s' := s.callers[id].installation, Advance(s, id, answer);
    var token := Mint(i, answer).value;
    NobodyElseInside(s, id);
    MintLogs(s.log, i, token);
    WellLoggedOneMore(s.log, Minted(i, token));
    hide LastMinted, Cleared, WellLogged, MuOk, TokensOk;
    assert InTransit(s', i, token);
    forall j, t | j != i && InTransit(s, j, t) ensures InTransit(s', j, t) {
    }
    hide InTransit, HeldOk, SingleOk;
  }

  lemma StoreKeepsLog(s: State, id: CallerId, answer: MintAnswer)
    requires LocksInv(s) && LogInv(s) && id in s.callers && s.callers[id].at.InStore?
    ensures LogInv(Advance(s, id, answer))
  {
    hide LastMinted, Cleared, WellLogged, MuOk, TokensOk;
  }

  lemma AdvanceKeepsLog(s: State, id: CallerId, answer: MintAnswer)
    requires LocksInv(s) && LogInv(s) && id in s.callers
    ensures LogInv(Advance(s, id, answer))
  {
    var c := s.callers[id];
    if c.at.InRecheck? && Cached(s, c.installation).None? {
      MissKeepsLog(s, id, answer);
    } else if c.at.Minting? && Mint(c.installation, answer).Some? {
      MintKeepsLog(s, id, answer);
    } else if c.at.InStore? {
      StoreKeepsLog(s, id, answer);
    } else {
      AdvanceMovesMu(s, id, answer);
      AdvanceMovesHeld(s, id, answer);
      AdvanceMovesSingle(s, id, answer);
      AdvanceIsQuiet(s, id, answer);
      hide Advance, LocksInv, LogInv, HeldMove, SingleMove, MuMove;
      QuietKeepsLog(s, Advance(s, id, answer), id, Advance(s, id, answer).callers[id]);
    }
  }

  lemma AdvanceIsQuiet(s: State, id: CallerId, answer: MintAnswer)
    requires id in s.callers && !s.callers[id].at.InStore?
    requires s.callers[id].at.InRecheck? ==> Cached(s, s.callers[id].installation).Some?
    requires s.callers[id].at.Minting? ==> Mint(s.callers[id].installation, answer).None?
    ensures var s' := Advance(s, id, answer);
            && s'.log == s.log && s'.cache == s.cache && id in s'.callers
            && Carried(s'.callers[id].at) == Carried(s.callers[id].at)
            && (s'.callers[id].at.Minting? ==> s.callers[id].at.Minting?)
  {
    hide Cached, HoldsMu, HoldsInstall;
    match s.callers[id].at
    case EnterCached =>
    case InCached =>
    case EnterLock =>
    case InLock =>
    case AwaitInstall =>
    case EnterRecheck =>
    case InRecheck =>
    case Minting =>
    case EnterStore(_) =>
    case InStore(_) =>
    case Leaving(_) =>
    case Finished(_) =>
  }

  ghost predicate Inv(s: State) {
    LocksInv(s) && LogInv(s)
  }

  lemma CallKeepsLocks(s: State, id: CallerId, installation: Installation)
    requires LocksInv(s) && id !in s.callers
    ensures LocksInv(Joined(s, id, installation))
  {
  }

  lemma CallKeepsLog(s: State, id: CallerId, installation: Installation)
    requires LogInv(s) && id !in s.callers
    ensures LogInv(Joined(s, id, installation))
  {
    hide LastMinted, Cleared, WellLogged;
    var s' := Joined(s, id, installation);
    forall i, t | InTransit(s, i, t) ensures InTransit(s', i, t) {
    }
    hide InTransit;
  }

  lemma CallKeepsInv(s: State, id: CallerId, installation: Installation)
    requires Inv(s) && id !in s.callers
    ensures Inv(Joined(s, id, installation))
  {
    hide LocksInv, LogInv, Joined;
    CallKeepsLocks(s, id, installation);
    CallKeepsLog(s, id, installation);
  }

  lemma TickKeepsInv(s: State, to: Time)
    requires Inv(s)
    ensures Inv(s.(now := to))
  {
    hide LastMinted, Cleared, WellLogged, MuOk, HeldOk, SingleOk, TokensOk, CallersLogged;
    forall i, t ensures InTransit(s.(now := to), i, t) == InTransit(s, i, t) {
    }
  }

  lemma StepKeepsInv(s: State, a: Action)
    requires Inv(s)
    ensures Inv(Step(s, a))
  {
    hide LocksInv, LogInv, Advance;
    match a
    case Call(id, installation) =>
      if id !in s.callers {
        CallKeepsInv(s, id, installation);
      }
    case Go(id, answer) =>
      if id in s.callers {
        AdvanceKeepsLocks(s, id, answer);
        AdvanceKeepsLog(s, id, answer);
      }
    case Tick(to) => TickKeepsInv(s, to);
  }

  lemma {:induction false} RunKeepsInv(acts: seq<Action>)
    ensures Inv(Run(acts))
  {
    hide Step, Inv;
    if acts == [] {
      InitInv();
    } else {
      RunKeepsInv(acts[..|acts| - 1]);
      StepKeepsInv(Run(acts[..|acts| - 1]), acts[|acts| - 1]);
    }
  }

  lemma InitInv()
    ensures Inv(INIT)
  {
  }

  // ---- coalescing ----

  /** Two mints for one installation are never under way at once, nor is one while another
      caller for it is between its locked re-check and its return. */
  lemma MintsNeverOverlap(acts: seq<Action>, id: CallerId, other: CallerId)
    requires var callers := Run(acts).callers;
             && id in callers && other in callers && callers[id].installation == callers[other].installation
             && callers[id].at.Minting? && HoldsInstall(callers[other].at)
    ensures id == other
  {
    RunKeepsInv(acts);
    hide Run, LocksInv, LogInv;
    OneInside(Run(acts), id, other);
  }

  /** The locked miss behind a cleared log: after every mint for the installation. */
  lemma {:induction false} ClearedBy(log: seq<Event>, inst: Installation, from: nat) returns (k: nat)
    requires Cleared(log, inst) && from < |log| && log[from].Minted? && log[from].installation == inst
    requires forall n :: from < n < |log| && log[n].Minted? ==> log[n].installation != inst
    ensures from < k < |log| && log[k].Missed? && log[k].installation == inst && !Valid(log[from].token, log[k].now)
  {
    var before, last := log[..|log| - 1], log[|log| - 1];
    if last.installation != inst {
      k := ClearedBy(before, inst, from);
    } else {
      k := |log| - 1;
      LastMintedIs(before, inst, from);
    }
  }

  lemma {:induction false} LastMintedIs(log: seq<Event>, inst: Installation, from: nat)
    requires from < |log| && log[from].Minted? && log[from].installation == inst
    requires forall n :: from < n < |log| && log[n].Minted? ==> log[n].installation != inst
    ensures LastMinted(log, inst) == Some(log[from].token)
  {
    if from < |log| - 1 {
      LastMintedIs(log[..|log| - 1], inst, from);
    }
  }

  lemma {:induction false} MintedTokensHaveText(acts: seq<Action>, j: nat)
    requires j < |Run(acts).log| && Run(acts).log[j].Minted?
    ensures Run(acts).log[j].token.text != ""
    decreases |acts|
  {
    var before, a := acts[..|acts| - 1], acts[|acts| - 1];
    var s := Run(before);
    hide Run, HoldsMu, HoldsInstall, Valid;
    if j < |s.log| {
      LogGrows(s, a);
      MintedTokensHaveText(before, j);
    } else {
      match s.callers[a.id].at
      case EnterCached =>
      case InCached =>
      case EnterLock =>
      case InLock =>
      case AwaitInstall =>
      case EnterRecheck =>
      case InRecheck =>
      case Minting =>
      case EnterStore(_) =>
      case InStore(_) =>
      case Leaving(_) =>
      case Finished(_) =>
    }
  }

  lemma LogGrows(s: State, a: Action)
    ensures s.log <= Step(s, a).log
  {
    hide Cached, HoldsMu, HoldsInstall;
  }

  /** Between two successive successful mints for an installation some caller re-checked the
      cache under the installation's lock at an instant no earlier than 60 seconds before the expiry
      of the earlier token. */
  lemma MintsAreSeparated(acts: seq<Action>, i: nat, j: nat) returns (k: nat)
    requires var log := Run(acts).log;
             && i < j < |log| && log[i].Minted? && log[j].Minted? && log[i].installation == log[j].installation
             && (forall n :: i < n < j && log[n].Minted? ==> log[n].installation != log[i].installation)
    ensures var log := Run(acts).log;
            && i < k < j && log[k].Missed? && log[k].installation == log[i].installation
            && log[k].now + 60_000_000_000 >= log[i].token.expiresAt
  {
    MintedTokensHaveText(acts, i);
    RunKeepsInv(acts);
    var log := Run(acts).log;
    assert WellLogged(log);
    hide Run, LocksInv, LogInv, Cleared;
    k := ClearedBy(log[..j], log[i].installation, i);
  }

  /** Whatever a caller gets or the cache holds is a token issued for that installation. */
  lemma TokensAreOwn(acts: seq<Action>)
    ensures var s := Run(acts);
            && (forall i :: i in s.cache ==> s.cache[i].issuedFor == i && s.cache[i].text != "")
            && (forall id :: id in s.callers && s.callers[id].at.Finished? && s.callers[id].at.result.Some? ==>
                  && s.callers[id].at.result.value.issuedFor == s.callers[id].installation
                  && s.callers[id].at.result.value.text != "")
  {
    RunKeepsInv(acts);
    var s := Run(acts);
    hide Run, MuOk, HeldOk, SingleOk, LogInv;
    forall id | id in s.callers && s.callers[id].at.Finished? && s.callers[id].at.result.Some?
      ensures IsOwn(s.callers[id].at.result.value, s.callers[id].installation)
    {
      assert TokenOf(s.callers[id].at, s.callers[id].installation);
    }
  }

  // ---- where tokens come from ----

  /** A look at the cache misses exactly if there is no token, or an empty one, or one that expires
      within 60 seconds of the look; otherwise it returns the token there is. */
  lemma LooksAreExact(s: State, id: CallerId, answer: MintAnswer)
    requires id in s.callers && (s.callers[id].at.InCached? || s.callers[id].at.InRecheck?)
    ensures var i, at := s.callers[id].installation, Advance(s, id, answer).callers[id].at;
            && (at.EnterLock? || at.Minting? <==>
                  i !in s.cache || s.cache[i].text == "" || s.now + 60_000_000_000 >= s.cache[i].expiresAt)
            && (at.EnterLock? || at.Minting? || at == Finished(Some(s.cache[i])) || at == Leaving(Some(s.cache[i])))
  {
  }

  /** Time alone ages the cached tokens: from 60 seconds before its expiry on a token is not found any
      more, whenever that is. */
  lemma TokensAge(acts: seq<Action>, to: Time, i: Installation)
    requires to >= Run(acts).now
    ensures var s, s' := Run(acts), Run(acts + [Tick(to)]);
            && s' == s.(now := to)
            && (Cached(s', i).None? <==>
                  i !in s.cache || s.cache[i].text == "" || to + 60_000_000_000 >= s.cache[i].expiresAt)
  {
    assert (acts + [Tick(to)])[..|acts|] == acts;
  }

  /** The token a caller has in hand. */
  function InHand(a: At): Option<Token> {
    match a
    case EnterStore(token) => Some(token)
    case InStore(token) => Some(token)
    case Leaving(result) => result
    case Finished(result) => result
    case _ => None
  }

  /** In its n-th step this caller found the token in the cache, with more than 60 seconds to live. */
  ghost predicate FoundAt(acts: seq<Action>, n: nat, id: CallerId, installation: Installation, t: Token) {
    n < |acts| && acts[n].Go? && acts[n].id == id &&
    var s := Run(acts[..n]);
    && id in s.callers && (s.callers[id].at.InCached? || s.callers[id].at.InRecheck?)
    && installation in s.cache && s.cache[installation] == t
    && t.text != "" && s.now + 60_000_000_000 < t.expiresAt
  }

  /** The n-th step is this caller's mint, and GitHub answered with the token. */
  ghost predicate MintedAt(acts: seq<Action>, n: nat, id: CallerId, installation: Installation, t: Token) {
    n < |acts| && acts[n].Go? && acts[n].id == id && acts[n].answer == Some((t.text, t.expiresAt)) &&
    var s := Run(acts[..n]);
    id in s.callers && s.callers[id].at.Minting? && t.text != "" && t.issuedFor == installation
  }

  lemma TokenStep(s: State, id: CallerId, answer: MintAnswer)
    requires id in s.callers
    ensures var c, c' := s.callers[id], Advance(s, id, answer).callers[id];
            c'.installation == c.installation
            && (InHand(c'.at).Some? ==>
                  || InHand(c'.at) == InHand(c.at)
                  || ((c.at.InCached? || c.at.InRecheck?) && InHand(c'.at) == Cached(s, c.installation))
                  || (c.at.Minting? && InHand(c'.at) == Mint(c.installation, answer)))
  {
    hide Cached, Mint, HoldsMu, HoldsInstall;
    match s.callers[id].at
    case EnterCached =>
    case InCached =>
    case EnterLock =>
    case InLock =>
    case AwaitInstall =>
    case EnterRecheck =>
    case InRecheck =>
    case Minting =>
    case EnterStore(_) =>
    case InStore(_) =>
    case Leaving(_) =>
    case Finished(_) =>
  }

  lemma OthersStay(s: State, a: Action, id: CallerId)
    requires !(a.Go? && a.id == id) && id in Step(s, a).callers && InHand(Step(s, a).callers[id].at).Some?
    ensures id in s.callers && Step(s, a).callers[id] == s.callers[id]
  {
    if a.Go? && a.id in s.callers {
      AdvanceMovesMu(s, a.id, a.answer);
      hide Advance, MuMove;
    }
  }

  /** Whatever token a caller holds or returned, it either found it in the cache, not empty and with
      more than 60 seconds to live when it looked, or minted it itself. */
  lemma {:induction false} TokensComeFrom(acts: seq<Action>, id: CallerId) returns (n: nat)
    requires id in Run(acts).callers && InHand(Run(acts).callers[id].at).Some?
    ensures var c := Run(acts).callers[id];
            FoundAt(acts, n, id, c.installation, InHand(c.at).value)
            || MintedAt(acts, n, id, c.installation, InHand(c.at).value)
  {
    var before, a := acts[..|acts| - 1], acts[|acts| - 1];
    var s, c' := Run(before), Run(acts).callers[id];
    assert Run(acts) == Step(s, a);
    hide Run, Advance, InHand;
    if a.Go? && a.id == id {
      TokenStep(s, id, a.answer);
      if InHand(c'.at) == InHand(s.callers[id].at) {
        n := TokensComeFrom(before, id);
        assert before[..n] == acts[..n] && before[n] == acts[n];
      } else {
        n := |before|;
      }
    } else {
      OthersStay(s, a, id);
      n := TokensComeFrom(before, id);
      assert before[..n] == acts[..n] && before[n] == acts[n];
    }
  }

  // ---- lock identity and deadlock freedom ----

  /** Once created, an installation's lock is its lock for good, and no other installation's. */
  lemma LocksAreForGood(acts: seq<Action>, a: Action)
    ensures var before, after := Run(acts), Step(Run(acts), a);
            && (forall i :: i in before.single ==> i in after.single && after.single[i] == before.single[i])
            && (forall i, j :: i in after.single && j in after.single && after.single[i] == after.single[j] ==> i == j)
  {
    RunKeepsInv(acts);
    var s := Run(acts);
    hide Run, LogInv, MuOk, HeldOk, TokensOk;
    StepKeepsInv(s, a);
    if a.Go? && a.id in s.callers {
      AdvanceMovesSingle(s, a.id, a.answer);
      hide Advance;
    }
  }

  /** No caller holds mu while it waits for an installation's lock or for GitHub. */
  lemma MuIsBrief(acts: seq<Action>, id: CallerId)
    requires id in Run(acts).callers && (Run(acts).callers[id].at.AwaitInstall? || Run(acts).callers[id].at.Minting?)
    ensures Run(acts).mu != Some(id)
  {
    RunKeepsInv(acts);
    hide Run, HeldOk, SingleOk, TokensOk, LogInv;
  }

  /** A caller can step if its next step, however GitHub answers, is not a wait. */
  ghost predicate CanStep(s: State, id: CallerId) {
    id in s.callers && forall answer :: Advance(s, id, answer) != s
  }

  predicate Waits(s: State, id: CallerId)
    requires id in s.callers
  {
    match s.callers[id].at
    case EnterCached => s.mu.Some?
    case EnterLock => s.mu.Some?
    case EnterRecheck => s.mu.Some?
    case EnterStore(_) => s.mu.Some?
    case AwaitInstall => s.callers[id].lock in s.held
    case Finished(_) => true
    case _ => false
  }

  lemma NotWaitingMoves(s: State, id: CallerId, answer: MintAnswer)
    requires id in s.callers && !Waits(s, id)
    ensures Advance(s, id, answer) != s && Rank(Advance(s, id, answer).callers[id].at) < Rank(s.callers[id].at)
  {
    hide Cached;
    assert s.callers[id] == s.callers[id].(at := s.callers[id].at);
    match s.callers[id].at
    case EnterCached =>
    case InCached =>
    case EnterLock =>
    case InLock =>
    case AwaitInstall =>
    case EnterRecheck =>
    case InRecheck =>
    case Minting =>
    case EnterStore(_) =>
    case InStore(_) =>
    case Leaving(_) =>
    case Finished(_) =>
  }

  /** How many steps a caller has left at most. */
  function Rank(a: At): nat {
    match a
    case EnterCached => 11
    case InCached => 10
    case EnterLock => 9
    case InLock => 8
    case AwaitInstall => 7
    case EnterRecheck => 6
    case InRecheck => 5
    case Minting => 4
    case EnterStore(_) => 3
    case InStore(_) => 2
    case Leaving(_) => 1
    case Finished(_) => 0
  }

  /** Someone who does not wait: mu's holder, else the holder of the lock waited for, else the caller. */
  lemma SomeoneMoves(s: State, id: CallerId) returns (mover: CallerId)
    requires LocksInv(s) && id in s.callers && !s.callers[id].at.Finished?
    ensures mover in s.callers && !Waits(s, mover)
  {
    hide TokensOk, SingleOk;
    if s.mu.Some? {
      mover := s.mu.value;
    } else if s.callers[id].at.AwaitInstall? && s.callers[id].lock in s.held {
      mover := s.held[s.callers[id].lock];
    } else {
      mover := id;
    }
  }

  /** In every reachable state in which some call has not returned, some caller can step. */
  lemma NoDeadlock(acts: seq<Action>, id: CallerId) returns (mover: CallerId)
    requires id in Run(acts).callers && !Run(acts).callers[id].at.Finished?
    ensures CanStep(Run(acts), mover)
  {
    RunKeepsInv(acts);
    var s := Run(acts);
    hide Run, LogInv;
    mover := SomeoneMoves(s, id);
    hide Waits, Advance;
    forall answer ensures Advance(s, mover, answer) != s {
      NotWaitingMoves(s, mover, answer);
    }
  }

  // ---- every call can return ----

  ghost function Work(callers: map<CallerId, Caller>): nat
    decreases |callers|
  {
    if callers == map[] then 0
    else
      var id :| id in callers;
      assert |callers - {id}| < |callers| by { Smaller(callers, id); }
      Rank(callers[id].at) + Work(callers - {id})
  }

  lemma Smaller(callers: map<CallerId, Caller>, id: CallerId)
    requires id in callers
    ensures |callers - {id}| < |callers|
  {
    assert (callers - {id}).Keys == callers.Keys - {id};
  }

  lemma {:induction false} WorkWithout(callers: map<CallerId, Caller>, id: CallerId)
    requires id in callers
    ensures Work(callers) == Rank(callers[id].at) + Work(callers - {id})
    decreases |callers|
  {
    hide Rank;
    var first :| first in callers && Work(callers) == Rank(callers[first].at) + Work(callers - {first});
    if first != id {
      Smaller(callers, first);
      WorkWithout(callers - {first}, id);
      Smaller(callers, id);
      WorkWithout(callers - {id}, first);
      assert callers - {first} - {id} == callers - {id} - {first};
    }
  }

  lemma WorkShrinks(callers: map<CallerId, Caller>, id: CallerId, c': Caller)
    requires id in callers && Rank(c'.at) < Rank(callers[id].at)
    ensures Work(callers[id := c']) < Work(callers)
  {
    WorkWithout(callers, id);
    WorkWithout(callers[id := c'], id);
    assert callers[id := c'] - {id} == callers - {id};
  }

  /** From every reachable state, whatever GitHub answers, there is a schedule of the callers
      already there under which each of them returns. */
  lemma {:induction false} EveryCallCanReturn(acts: seq<Action>, answer: MintAnswer) returns (more: seq<Action>)
    ensures forall n :: 0 <= n < |more| ==> more[n].Go? && more[n].answer == answer
    ensures Run(acts + more).callers.Keys == Run(acts).callers.Keys
    ensures forall id :: id in Run(acts + more).callers ==> Run(acts + more).callers[id].at.Finished?
    decreases Work(Run(acts).callers)
  {
    var s := Run(acts);
    hide Work, Rank, Advance;
    if forall id :: id in s.callers ==> s.callers[id].at.Finished? {
      more := [];
      assert acts + more == acts;
    } else {
      var id :| id in s.callers && !s.callers[id].at.Finished?;
      RunKeepsInv(acts);
      var mover := SomeoneMoves(s, id);
      NotWaitingMoves(s, mover, answer);
      AdvanceMovesMu(s, mover, answer);
      WorkShrinks(s.callers, mover, Advance(s, mover, answer).callers[mover]);
      var go := Go(mover, answer);
      assert (acts + [go])[..|acts|] == acts;
      assert Run(acts + [go]) == Advance(s, mover, answer);
      hide Run, Inv, Waits, MuMove;
      var rest := EveryCallCanReturn(acts + [go], answer);
      more := [go] + rest;
      assert acts + more == acts + [go] + rest;
    }
  }
}
