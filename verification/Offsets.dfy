/**
  The consumer loop around process: fetch, then acknowledge the offset, park the
  message in the dead-letter topic, or leave it for redelivery.

  Which offset Fetch hands out next is the library's business, so each turn names
  it. The loop does not keep a message it failed on; that an unsettled message is
  fetched again before any later one is the named assumption `Redelivers`.
 */
module Offsets {
  import opened Prelude
  import opened Json
  import opened Connector
  import opened GitHubSource
  import opened Kafka
  import opened Schema
  import opened Views
  import opened Delivery

  /** One turn of the loop: the offset fetched, and how everything outside went. */
  datatype Turn = Turn(offset: nat, now: Time, fate: Fate, dlq: WriteFate, offsetCommitted: bool)

  /** mark: the committed offset; every offset below it is never fetched again after a restart. */
  datatype Consumer = Consumer(core: State, dlq: seq<Message>, mark: nat)

  const START := Consumer(INIT, [], 0)

  function Reason(f: Failure): string {
    match f
    case Undecodable => "github: decode payload"
    case MissingInstallation => "github: missing installation id"
  }

  /** deadLetter: the original message with the failure reason stamped on it. */
  function DeadLetter(msg: Message, f: Failure): Message {
    msg.(headers := msg.headers[HEADER_DLQ_REASON := Text(Reason(f))])
  }

  function AttemptOf(log: seq<Message>, turn: Turn): Attempt
    requires turn.offset < |log|
  {
    Attempt(log[turn.offset], turn.now, turn.fate)
  }

  /** Whether the turn reaches the call that commits its offset. */
  function Acknowledges(installs: Installs, log: seq<Message>, s: Consumer, turn: Turn): bool
    requires turn.offset < |log|
  {
    match Process(installs, s.core.tables, AttemptOf(log, turn)).reply
    case Done => true
    case Permanent => turn.dlq.Acknowledged?
    case Transient => false
  }

  function Take(installs: Installs, log: seq<Message>, s: Consumer, turn: Turn): Consumer {
    if turn.offset >= |log| then s
    else
      var a := AttemptOf(log, turn);
      var parked := Process(installs, s.core.tables, a).reply.Permanent? && !turn.dlq.Failed?
                    && Normalize(Raw(a.msg)).Err?;
      Consumer(Step(installs, s.core, a),
               if parked then s.dlq + [DeadLetter(a.msg, Normalize(Raw(a.msg)).error)] else s.dlq,
               if Acknowledges(installs, log, s, turn) && turn.offsetCommitted then turn.offset + 1 else s.mark)
  }

  function Consume(installs: Installs, log: seq<Message>, turns: seq<Turn>): Consumer {
    if turns == [] then START
    else Take(installs, log, Consume(installs, log, turns[..|turns| - 1]), turns[|turns| - 1])
  }

  /** A message is dealt with: parked if bad, otherwise skipped, dropped as of an unknown
      installation, or its delivery committed. */
  ghost predicate Settled(installs: Installs, s: Consumer, msg: Message) {
    match Normalize(Raw(msg))
    case Err(f) => DeadLetter(msg, f) in s.dlq
    case Ok(_) => Request(installs, msg).Some? ==> Accounted(s.core.history, Request(installs, msg).value)
  }

  ghost predicate SettledBelow(installs: Installs, log: seq<Message>, s: Consumer, n: nat) {
    forall i :: 0 <= i < n && i < |log| ==> Settled(installs, s, log[i])
  }

  /** No offset below the committed one is unsettled. */
  ghost predicate Safe(installs: Installs, log: seq<Message>, s: Consumer) {
    SettledBelow(installs, log, s, s.mark)
  }

  /** Turn m fetched this offset and got as far as committing it. */
  ghost predicate AckedAt(installs: Installs, log: seq<Message>, turns: seq<Turn>, m: nat, offset: nat) {
    m < |turns| && turns[m].offset == offset < |log|
    && Acknowledges(installs, log, Consume(installs, log, turns[..m]), turns[m])
  }

  /** One of the first n turns fetched this offset and got as far as committing it. */
  ghost predicate AckedBefore(installs: Installs, log: seq<Message>, turns: seq<Turn>, n: nat, offset: nat) {
    exists m :: 0 <= m < n && AckedAt(installs, log, turns, m, offset)
  }

  /** The fetch contract: an offset is handed out only after every earlier one was fetched and
      acknowledged. */
  ghost predicate AlwaysRedelivers(installs: Installs, log: seq<Message>, turns: seq<Turn>) {
    forall n, i :: 0 <= n < |turns| && 0 <= i < turns[n].offset && i < |log|
                   ==> AckedBefore(installs, log, turns, n, i)
  }

  // ---- settled messages stay settled ----

  lemma SettledForGood(installs: Installs, log: seq<Message>, s: Consumer, turn: Turn, msg: Message)
    requires Settled(installs, s, msg)
    ensures Settled(installs, Take(installs, log, s, turn), msg)
  {
    hide Process, Request, Accounted, Normalize, DeadLetter, Acknowledges;
    if turn.offset < |log| {
      HistoryGrows(installs, s.core, AttemptOf(log, turn));
      if Request(installs, msg).Some? && Accounted(s.core.history, Request(installs, msg).value) {
        AccountedForGood(s.core.history, Take(installs, log, s, turn).core.history, Request(installs, msg).value);
      }
    }
  }

  lemma {:induction false} ConsumeKeepsInv(installs: Installs, log: seq<Message>, turns: seq<Turn>)
    ensures Inv(Consume(installs, log, turns).core)
  {
    hide Inv, Step;
    if turns == [] {
      InitInv();
    } else {
      var before, turn := turns[..|turns| - 1], turns[|turns| - 1];
      ConsumeKeepsInv(installs, log, before);
      if turn.offset < |log| {
        StepKeepsInv(installs, Consume(installs, log, before).core, AttemptOf(log, turn));
      }
    }
  }

  /** A turn that gets as far as committing its offset has settled its message. */
  lemma AcknowledgedIsSettled(installs: Installs, log: seq<Message>, s: Consumer, turn: Turn)
    requires Inv(s.core) && turn.offset < |log| && Acknowledges(installs, log, s, turn)
    ensures Settled(installs, Take(installs, log, s, turn), log[turn.offset])
  {
    hide Inv, Accounted, DeadLetter;
    var a := AttemptOf(log, turn);
    if Process(installs, s.core.tables, a).reply.Permanent? {
      PermanentLeavesNoRow(installs, s.core.tables, a);
      hide Process, Normalize;
      assert DeadLetter(a.msg, Normalize(Raw(a.msg)).error) in Take(installs, log, s, turn).dlq;
    } else if Request(installs, a.msg).Some? {
      AcknowledgedIsAccounted(installs, s.core, a);
    } else if Normalize(Raw(a.msg)).Err? {
      BadIsNotDone(installs, s.core.tables, a);
    }
  }

  lemma BadIsNotDone(installs: Installs, t: Tables, a: Attempt)
    requires Normalize(Raw(a.msg)).Err?
    ensures Process(installs, t, a).reply.Permanent?
  {
  }

  /** What a turn acknowledged is settled at the end of the run. */
  lemma {:induction false} AckedIsSettled(installs: Installs, log: seq<Message>, turns: seq<Turn>, m: nat, i: nat)
    requires AckedAt(installs, log, turns, m, i)
    ensures Settled(installs, Consume(installs, log, turns), log[i])
    decreases |turns|
  {
    hide Settled, Take, Acknowledges, Inv;
    var before, turn := turns[..|turns| - 1], turns[|turns| - 1];
    if m == |before| {
      ConsumeKeepsInv(installs, log, before);
      AcknowledgedIsSettled(installs, log, Consume(installs, log, before), turn);
    } else {
      assert before[..m] == turns[..m] && before[m] == turns[m];
      AckedIsSettled(installs, log, before, m, i);
      SettledForGood(installs, log, Consume(installs, log, before), turn, log[i]);
    }
  }

  /** The committed offset is one past an acknowledged one. */
  lemma {:induction false} MarkIsAcked(installs: Installs, log: seq<Message>, turns: seq<Turn>) returns (m: nat)
    requires Consume(installs, log, turns).mark > 0
    ensures AckedAt(installs, log, turns, m, Consume(installs, log, turns).mark - 1)
  {
    hide Acknowledges, Process;
    var before, turn := turns[..|turns| - 1], turns[|turns| - 1];
    var s := Consume(installs, log, before);
    if turn.offset < |log| && Acknowledges(installs, log, s, turn) && turn.offsetCommitted {
      m := |before|;
    } else {
      m := MarkIsAcked(installs, log, before);
      assert before[..m] == turns[..m] && before[m] == turns[m];
    }
  }

  /** Under the fetch contract every offset below the committed one is settled, in every state
      of every run: nothing is skipped over, whatever failed on the way. */
  lemma OffsetsAreSafe(installs: Installs, log: seq<Message>, turns: seq<Turn>)
    requires AlwaysRedelivers(installs, log, turns)
    ensures Safe(installs, log, Consume(installs, log, turns))
  {
    hide Settled, AckedAt;
    var s := Consume(installs, log, turns);
    forall i | 0 <= i < s.mark && i < |log| ensures Settled(installs, s, log[i]) {
      var last := MarkIsAcked(installs, log, turns);
      if i == s.mark - 1 {
        AckedIsSettled(installs, log, turns, last, i);
      } else {
        AckedNames(installs, log, turns, last, s.mark - 1);
        assert AckedBefore(installs, log, turns, last, i);
        var m :| 0 <= m < last && AckedAt(installs, log, turns, m, i);
        AckedIsSettled(installs, log, turns, m, i);
      }
    }
  }

  lemma AckedNames(installs: Installs, log: seq<Message>, turns: seq<Turn>, m: nat, i: nat)
    requires AckedAt(installs, log, turns, m, i)
    ensures m < |turns| && turns[m].offset == i < |log|
  {
  }

  // ---- exactly when committing an offset is safe ----

  /** Settling either message settles the other: copies of one delivery, or of one bad message. */
  ghost predicate Twins(installs: Installs, a: Message, b: Message) {
    match (Normalize(Raw(a)), Normalize(Raw(b)))
    case (Err(f), Err(g)) => DeadLetter(a, f) == DeadLetter(b, g)
    case (Ok(_), Ok(_)) =>
      && Request(installs, a).Some? && Request(installs, b).Some?
      && var c, d := Request(installs, a).value, Request(installs, b).value;
         c.tenant == d.tenant && c.deliveryId == d.deliveryId && (c.deliveryId == "" ==> c == d)
    case _ => false
  }

  /** A message that asks for nothing: skipped, empty or of an unknown installation. */
  predicate AsksNothing(installs: Installs, msg: Message) {
    Normalize(Raw(msg)).Ok? && Request(installs, msg).None?
  }

  /** The turn fetched a copy of the message, and the database committed, reported or not, or,
      for a bad message, the dead-letter topic was written, acknowledged or not. */
  ghost predicate Settles(installs: Installs, log: seq<Message>, turn: Turn, msg: Message) {
    turn.offset < |log| && Twins(installs, msg, log[turn.offset])
    && if Normalize(Raw(msg)).Err? then !turn.dlq.Failed? else turn.fate.Commits? || turn.fate.CommitsUnreported?
  }

  lemma RequestsNormalize(installs: Installs, msg: Message)
    ensures Request(installs, msg).Some? ==> Normalize(Raw(msg)).Ok?
  {
    hide Normalize;
  }

  /** A bad message is settled by a turn exactly if a copy of it is parked. */
  lemma BadTurnSettles(installs: Installs, log: seq<Message>, s: Consumer, turn: Turn, msg: Message)
    requires turn.offset < |log| && Normalize(Raw(msg)).Err?
    ensures Settled(installs, Take(installs, log, s, turn), msg)
       <==> Settled(installs, s, msg) || Settles(installs, log, turn, msg)
  {
    hide Normalize, DeadLetter, Acknowledges, Step;
    RequestsNormalize(installs, msg);
    RequestsNormalize(installs, log[turn.offset]);
    BadIsPermanent(installs, s.core.tables, AttemptOf(log, turn));
    hide Process, Request;
  }

  lemma BadIsPermanent(installs: Installs, t: Tables, a: Attempt)
    ensures Normalize(Raw(a.msg)).Err? ==> Process(installs, t, a).reply.Permanent?
  {
    hide Normalize, Effect, Fresh;
  }

  /** What an attempt adds to the history: its request, if the database commits a fresh one. */
  lemma AttemptCommits(installs: Installs, t: Tables, a: Attempt)
    ensures var o, request := Process(installs, t, a), Request(installs, a.msg);
            var commits := request.Some? && (a.fate.Commits? || a.fate.CommitsUnreported?)
                           && Fresh(t, request.value.tenant, request.value.deliveryId);
            o.commit == if commits then request else None
  {
    hide Normalize, Effect, Complete, Fresh;
    RequestsAreComplete(installs, a.msg);
    if Request(installs, a.msg).Some? {
      PersistNeverFails(t, Request(installs, a.msg).value, a.now);
    }
  }

  /** A request is accounted for after a turn exactly if it was before or a copy got its commit. */
  lemma GoodTurnSettles(installs: Installs, log: seq<Message>, s: Consumer, turn: Turn, msg: Message)
    requires Inv(s.core) && turn.offset < |log| && Request(installs, msg).Some?
    ensures Settled(installs, Take(installs, log, s, turn), msg)
       <==> Settled(installs, s, msg) || Settles(installs, log, turn, msg)
  {
    hide Normalize, DeadLetter, Acknowledges, Process, Complete, Rep, NoRepeats, Meaning;
    var a, h := AttemptOf(log, turn), s.core.history;
    var h' := Take(installs, log, s, turn).core.history;
    RequestsNormalize(installs, msg);
    RequestsNormalize(installs, a.msg);
    AttemptCommits(installs, s.core.tables, a);
    var c, request := Request(installs, msg).value, Request(installs, a.msg);
    hide Request;
    if Accounted(h, c) {
      AccountedForGood(h, h', c);
    } else if Settles(installs, log, turn, msg) {
      CopyAccounts(s.core, c, request.value);
    } else if Accounted(h', c) {
      var i :| 0 <= i < |h'| && h'[i].tenant == c.tenant && h'[i].deliveryId == c.deliveryId
               && (c.deliveryId == "" ==> h'[i] == c);
    }
  }

  /** After a copy is committed, or found committed already, the request is accounted for. */
  lemma CopyAccounts(s: State, c: Commit, d: Commit)
    requires MarkedExactly(s.tables.deliveries, s.history)
    requires c.tenant == d.tenant && c.deliveryId == d.deliveryId && (c.deliveryId == "" ==> c == d)
    ensures Accounted(if Fresh(s.tables, d.tenant, d.deliveryId) then s.history + [d] else s.history, c)
  {
    if Fresh(s.tables, d.tenant, d.deliveryId) {
      assert (s.history + [d])[|s.history|] == d;
    }
  }

  lemma TurnSettles(installs: Installs, log: seq<Message>, s: Consumer, turn: Turn, msg: Message)
    requires Inv(s.core)
    ensures Settled(installs, Take(installs, log, s, turn), msg)
       <==> Settled(installs, s, msg) || Settles(installs, log, turn, msg)
  {
    RequestsNormalize(installs, msg);
    if turn.offset < |log| {
      if Normalize(Raw(msg)).Err? {
        BadTurnSettles(installs, log, s, turn, msg);
      } else if Request(installs, msg).Some? {
        GoodTurnSettles(installs, log, s, turn, msg);
      } else {
        hide Normalize, Request, Take;
      }
    }
    hide Normalize, Request;
  }

  ghost predicate SettledBy(installs: Installs, log: seq<Message>, turns: seq<Turn>, msg: Message) {
    exists m :: 0 <= m < |turns| && Settles(installs, log, turns[m], msg)
  }

  /** Whether a message is settled can be read off the turns: what they fetched, and what became
      of their commits and dead-letter writes. */
  lemma {:induction false} SettledIff(installs: Installs, log: seq<Message>, turns: seq<Turn>, msg: Message)
    ensures Settled(installs, Consume(installs, log, turns), msg)
       <==> AsksNothing(installs, msg) || SettledBy(installs, log, turns, msg)
  {
    hide Settles, Take, Normalize, Request, Inv;
    if turns == [] {
      RequestsNormalize(installs, msg);
    } else {
      var before, turn := turns[..|turns| - 1], turns[|turns| - 1];
      SettledIff(installs, log, before, msg);
      ConsumeKeepsInv(installs, log, before);
      TurnSettles(installs, log, Consume(installs, log, before), turn, msg);
      hide Settled, AsksNothing;
      assert forall m :: 0 <= m < |before| ==> before[m] == turns[m];
    }
  }

  /** Each of the first n messages asks for nothing or had a copy fetched by a turn that got its
      commit or its dead-letter write. */
  ghost predicate CoveredBelow(installs: Installs, log: seq<Message>, turns: seq<Turn>, n: nat) {
    forall i :: 0 <= i < n && i < |log| ==> AsksNothing(installs, log[i]) || SettledBy(installs, log, turns, log[i])
  }

  lemma SettledBelowIff(installs: Installs, log: seq<Message>, turns: seq<Turn>, n: nat)
    ensures SettledBelow(installs, log, Consume(installs, log, turns), n) <==> CoveredBelow(installs, log, turns, n)
  {
    hide Settled, SettledBy, AsksNothing, Consume;
    forall i | 0 <= i < |log|
      ensures Settled(installs, Consume(installs, log, turns), log[i])
         <==> AsksNothing(installs, log[i]) || SettledBy(installs, log, turns, log[i])
    {
      SettledIff(installs, log, turns, log[i]);
    }
  }

  /** A run is safe exactly when every message below the committed offset is covered by its turns. */
  lemma SafeIff(installs: Installs, log: seq<Message>, turns: seq<Turn>)
    ensures Safe(installs, log, Consume(installs, log, turns))
       <==> CoveredBelow(installs, log, turns, Consume(installs, log, turns).mark)
  {
    hide Consume, SettledBelow, CoveredBelow;
    SettledBelowIff(installs, log, turns, Consume(installs, log, turns).mark);
  }

  lemma SettledUpTo(installs: Installs, log: seq<Message>, s: Consumer, n: nat)
    requires n < |log| && Settled(installs, s, log[n])
    ensures SettledBelow(installs, log, s, n + 1) <==> SettledBelow(installs, log, s, n)
  {
    hide Settled;
  }

  /** Committing an offset after a run is safe exactly when every earlier message is covered by the
      turns so far, this one included. */
  lemma CommitIsSafeIff(installs: Installs, log: seq<Message>, turns: seq<Turn>, turn: Turn)
    requires turn.offset < |log| && turn.offsetCommitted
    requires Acknowledges(installs, log, Consume(installs, log, turns), turn)
    ensures Safe(installs, log, Consume(installs, log, turns + [turn]))
       <==> CoveredBelow(installs, log, turns + [turn], turn.offset)
  {
    var s, all := Consume(installs, log, turns), turns + [turn];
    assert all[..|turns|] == turns;
    assert Consume(installs, log, all) == Take(installs, log, s, turn);
    hide Consume, Settled, SettledBelow, CoveredBelow, Inv, Acknowledges;
    ConsumeKeepsInv(installs, log, turns);
    AcknowledgedIsSettled(installs, log, s, turn);
    SettledUpTo(installs, log, Take(installs, log, s, turn), turn.offset);
    SettledBelowIff(installs, log, all, turn.offset);
  }

  // ---- the dead-letter topic ----

  /** The webhook as it was, with the reason why it does not normalize. */
  ghost predicate IsDeadLetterOf(parked: Message, msg: Message) {
    && parked.key == msg.key && parked.body == msg.body
    && parked.headers.Keys == msg.headers.Keys + {"dlq-reason"}
    && (forall h :: h in msg.headers && h != "dlq-reason" ==> parked.headers[h] == msg.headers[h])
    && match Normalize(Raw(msg))
       case Err(Undecodable) => parked.headers["dlq-reason"] == Text("github: decode payload")
       case Err(MissingInstallation) => parked.headers["dlq-reason"] == Text("github: missing installation id")
       case Ok(_) => false
  }

  /** The dead-letter topic holds nothing but messages that do not normalize, each whole. */
  lemma {:induction false} DeadLettersAreBadMessages(installs: Installs, log: seq<Message>, turns: seq<Turn>, k: nat)
    returns (i: nat)
    requires k < |Consume(installs, log, turns).dlq|
    ensures i < |log| && IsDeadLetterOf(Consume(installs, log, turns).dlq[k], log[i])
    decreases |turns|
  {
    hide Normalize, Process, Acknowledges, Step;
    var before, turn := turns[..|turns| - 1], turns[|turns| - 1];
    if k < |Consume(installs, log, before).dlq| {
      hide IsDeadLetterOf;
      i := DeadLettersAreBadMessages(installs, log, before, k);
    } else {
      i := turn.offset;
    }
  }

  // ---- progress ----

  /** A message that asks for nothing is acknowledged, without a trace, once its installation was
      looked up; a skipped one even if the lookup would fail. */
  lemma AskingNothingIsAcknowledged(installs: Installs, log: seq<Message>, s: Consumer, turn: Turn)
    requires turn.offset < |log| && AsksNothing(installs, log[turn.offset])
    requires Normalize(Raw(log[turn.offset])).value.skip || !turn.fate.LookupFails?
    ensures Acknowledges(installs, log, s, turn)
    ensures Take(installs, log, s, turn) == s.(mark := if turn.offsetCommitted then turn.offset + 1 else s.mark)
  {
    RequestIsExact(installs, log[turn.offset]);
    SkippedIffEmpty(Raw(log[turn.offset]));
    hide Normalize;
  }

  /** Nothing outside fails. */
  predicate IsCalm(turn: Turn) {
    turn.fate == Commits && turn.dlq == Acknowledged && turn.offsetCommitted
  }

  lemma CalmTurnAcknowledges(installs: Installs, log: seq<Message>, s: Consumer, turn: Turn)
    requires turn.offset < |log| && IsCalm(turn)
    ensures Acknowledges(installs, log, s, turn)
  {
    var msg := log[turn.offset];
    RequestsAreComplete(installs, msg);
    if Request(installs, msg).Some? {
      PersistNeverFails(s.core.tables, Request(installs, msg).value, turn.now);
    }
    hide Normalize, Effect, Complete, Fresh;
  }

  /** Calm turns that fetch the offsets from this one on, in order, to the end of the log. */
  ghost predicate CatchesUp(log: seq<Message>, from: nat, more: seq<Turn>) {
    |more| == |log| - from && forall k :: 0 <= k < |more| ==> IsCalm(more[k]) && more[k].offset == from + k
  }

  lemma ConsumeOneMore(installs: Installs, log: seq<Message>, turns: seq<Turn>, turn: Turn)
    ensures Consume(installs, log, turns + [turn]) == Take(installs, log, Consume(installs, log, turns), turn)
  {
    assert (turns + [turn])[..|turns|] == turns;
  }

  lemma AcknowledgedMovesMark(installs: Installs, log: seq<Message>, s: Consumer, turn: Turn)
    requires turn.offset < |log| && turn.offsetCommitted && Acknowledges(installs, log, s, turn)
    ensures Take(installs, log, s, turn).mark == turn.offset + 1
  {
    hide Acknowledges, Step, Process;
  }

  lemma {:induction false} CatchingUpMovesMark(installs: Installs, log: seq<Message>, turns: seq<Turn>,
      more: seq<Turn>, n: nat)
    requires n <= |more| && CatchesUp(log, Consume(installs, log, turns).mark, more)
    ensures Consume(installs, log, turns + more[..n]).mark == Consume(installs, log, turns).mark + n
  {
    hide Consume, Acknowledges, Take;
    if n == 0 {
      assert turns + more[..0] == turns;
    } else {
      CatchingUpMovesMark(installs, log, turns, more, n - 1);
      var before := turns + more[..n - 1];
      assert turns + more[..n] == before + [more[n - 1]];
      ConsumeOneMore(installs, log, before, more[n - 1]);
      CalmTurnAcknowledges(installs, log, Consume(installs, log, before), more[n - 1]);
      AcknowledgedMovesMark(installs, log, Consume(installs, log, before), more[n - 1]);
    }
  }

  lemma AckedInFront(installs: Installs, log: seq<Message>, turns: seq<Turn>, more: seq<Turn>, m: nat, i: nat)
    requires AckedAt(installs, log, turns, m, i)
    ensures AckedAt(installs, log, turns + more, m, i)
  {
    hide Acknowledges, Consume;
    assert (turns + more)[..m] == turns[..m] && (turns + more)[m] == turns[m];
  }

  /** Every offset below the mark was acknowledged, under the fetch contract. */
  lemma BelowMarkIsAcked(installs: Installs, log: seq<Message>, turns: seq<Turn>, i: nat)
    requires AlwaysRedelivers(installs, log, turns) && i < Consume(installs, log, turns).mark
    ensures i < |log| && AckedBefore(installs, log, turns, |turns|, i)
  {
    hide AckedAt;
    var last := MarkIsAcked(installs, log, turns);
    AckedNames(installs, log, turns, last, Consume(installs, log, turns).mark - 1);
    hide Consume;
    if i < turns[last].offset {
      assert AckedBefore(installs, log, turns, last, i);
    }
  }

  lemma CatchingUpAcks(installs: Installs, log: seq<Message>, turns: seq<Turn>, more: seq<Turn>, k: nat)
    requires k < |more| && CatchesUp(log, Consume(installs, log, turns).mark, more)
    ensures AckedAt(installs, log, turns + more, |turns| + k, Consume(installs, log, turns).mark + k)
  {
    assert (turns + more)[|turns| + k] == more[k];
    CalmTurnAcknowledges(installs, log, Consume(installs, log, (turns + more)[..|turns| + k]), more[k]);
    hide Consume, Acknowledges;
  }

  lemma CatchingUpRedelivers(installs: Installs, log: seq<Message>, turns: seq<Turn>, more: seq<Turn>)
    requires AlwaysRedelivers(installs, log, turns) && CatchesUp(log, Consume(installs, log, turns).mark, more)
    ensures AlwaysRedelivers(installs, log, turns + more)
  {
    var all, mark := turns + more, Consume(installs, log, turns).mark;
    hide AckedAt, Consume;
    forall n, i | 0 <= n < |all| && 0 <= i < all[n].offset && i < |log| ensures AckedBefore(installs, log, all, n, i) {
      if i >= mark && n >= |turns| {
        CatchingUpAcks(installs, log, turns, more, i - mark);
      } else {
        if n < |turns| {
          assert AckedBefore(installs, log, turns, n, i);
        } else {
          BelowMarkIsAcked(installs, log, turns, i);
        }
        var m :| 0 <= m < n && AckedAt(installs, log, turns, m, i);
        AckedInFront(installs, log, turns, more, m, i);
      }
    }
  }

  /** Whatever happened before, the offsets from the mark on, fetched in order with nothing failing,
      end with every offset committed; and with every message settled if the fetch contract was
      kept until then. From the start of the log that is every message, with no contract needed. */
  lemma CalmRunsFinish(installs: Installs, log: seq<Message>, turns: seq<Turn>, more: seq<Turn>)
    requires CatchesUp(log, Consume(installs, log, turns).mark, more)
    ensures Consume(installs, log, turns + more).mark == |log|
    ensures AlwaysRedelivers(installs, log, turns) || turns == [] ==>
              forall i :: 0 <= i < |log| ==> Settled(installs, Consume(installs, log, turns + more), log[i])
  {
    hide Settled, Take, AckedAt;
    CatchingUpMovesMark(installs, log, turns, more, |more|);
    assert more[..|more|] == more;
    if AlwaysRedelivers(installs, log, turns) {
      CatchingUpRedelivers(installs, log, turns, more);
      OffsetsAreSafe(installs, log, turns + more);
    }
    hide Consume;
  }

  // ---- without the contract ----

  /** A commit status of an onboarded repository. */
  function StatusMessage(delivery: string): Message {
    Message(delivery,
            Document(Obj(map["state" := Str("success", None), "installation" := Obj(map["id" := Int(1)])])),
            map[HEADER_EVENT := Text("status"), HEADER_DELIVERY := Text(delivery)])
  }

  lemma StatusIsRequested(tenant: Tenant, delivery: string)
    ensures Request(map[1 := tenant], StatusMessage(delivery)).Some?
    ensures Request(map[1 := tenant], StatusMessage(delivery)).value.deliveryId == delivery
    ensures Request(map[1 := tenant], StatusMessage(delivery)).value.tenant == tenant
    ensures Normalize(Raw(StatusMessage(delivery))).Ok?
  {
    var raw := Raw(StatusMessage(delivery));
    var f := PayloadFields(raw.body).value;
    assert raw.eventType == "status";
    assert AsFields(Get(f, "installation")) == Ok(map["id" := Int(1)]);
    assert InstallationId(f) == Ok(1);
    assert Normalize(raw) == NormalizeStatus(f);
  }

  lemma FirstEffectSucceeds(installs: Installs, msg: Message, now: Time)
    requires Request(installs, msg).Some?
    ensures Effect(EMPTY, Request(installs, msg).value, now).Ok?
  {
    hide Complete, Effect;
    RequestsAreComplete(installs, msg);
    PersistNeverFails(EMPTY, Request(installs, msg).value, now);
  }

  lemma FailedTurnChangesNothing(installs: Installs, log: seq<Message>, turn: Turn)
    requires turn.offset < |log| && Request(installs, log[turn.offset]).Some? && turn.fate == Aborts(0, 0)
    ensures Take(installs, log, START, turn) == START
  {
    hide Normalize, Effect;
  }

  lemma GoodTurnCommits(installs: Installs, log: seq<Message>, turn: Turn)
    requires turn.offset < |log| && Request(installs, log[turn.offset]).Some? && turn.fate == Commits
        && turn.offsetCommitted
    ensures var s := Take(installs, log, START, turn);
            s.mark == turn.offset + 1 && s.core.history == [Request(installs, log[turn.offset]).value]
  {
    hide Normalize, Effect;
    FirstEffectSucceeds(installs, log[turn.offset], turn.now);
  }

  lemma TwoTurns(installs: Installs, log: seq<Message>, a: Turn, b: Turn)
    ensures Consume(installs, log, [a, b]) == Take(installs, log, Take(installs, log, START, a), b)
  {
    hide Take;
    assert [a, b][..1] == [a] && [a][..0] == [];
    assert Consume(installs, log, [a]) == Take(installs, log, START, a);
  }

  lemma FailedTurnIsNotAcked(installs: Installs, log: seq<Message>, turns: seq<Turn>)
    requires |log| == 2 && |turns| == 2 && turns[0].offset == 0 && turns[1].offset == 1
    requires turns[0].fate == Aborts(0, 0) && Request(installs, log[0]).Some?
    ensures !AlwaysRedelivers(installs, log, turns)
  {
    hide Normalize, Effect, Consume;
    assert !AckedAt(installs, log, turns, 0, 0);
    assert !AckedBefore(installs, log, turns, 1, 0);
  }

  /** If Fetch simply moves on, as the loop itself would have it, one transient failure followed
      by one success commits past a message that nothing accounts for. */
  lemma MovingOnLosesMessages(tenant: Tenant)
    ensures var installs, log: seq<Message> := map[1 := tenant], [StatusMessage("a"), StatusMessage("b")];
            var turns := [Turn(0, 0, Aborts(0, 0), Failed, true), Turn(1, 0, Commits, Failed, true)];
            var s := Consume(installs, log, turns);
            && s.mark == 2 && !Settled(installs, s, log[0]) && !Safe(installs, log, s)
            && !AlwaysRedelivers(installs, log, turns)
  {
    hide Take, Consume, Request, Normalize, StatusMessage;
    var installs: Installs, log: seq<Message> := map[1 := tenant], [StatusMessage("a"), StatusMessage("b")];
    var first, second := Turn(0, 0, Aborts(0, 0), Failed, true), Turn(1, 0, Commits, Failed, true);
    StatusIsRequested(tenant, "a");
    StatusIsRequested(tenant, "b");
    TwoTurns(installs, log, first, second);
    FailedTurnChangesNothing(installs, log, first);
    GoodTurnCommits(installs, log, second);
    assert !Settled(installs, Consume(installs, log, [first, second]), log[0]);
    FailedTurnIsNotAcked(installs, log, [first, second]);
  }
}
