/**
  services/connector-github's consumer loop: fetch a webhook, emit its enriched
  form, commit the offset. As in module Offsets, each turn names the offset fetched,
  and that an unemitted webhook is fetched again first is a named assumption.
 */
module ConnectorService {
  import opened Kafka
  import opened Prelude
  import Enrichment
  import Backoff

  datatype Turn = Turn(offset: nat, world: Enrichment.World, write: WriteFate, offsetCommitted: bool)

  /** enriched: the topic the normalizer consumes. mark: the committed offset. */
  datatype State = State(enriched: seq<Message>, mark: nat)

  function Take(webhooks: seq<Message>, s: State, turn: Turn): State {
    if turn.offset >= |webhooks| then s
    else
      State(if turn.write.Failed? then s.enriched else s.enriched + [Enrichment.Output(webhooks[turn.offset],
          turn.world)],
            if turn.write.Acknowledged? && turn.offsetCommitted then turn.offset + 1 else s.mark)
  }

  function Consume(webhooks: seq<Message>, turns: seq<Turn>): State {
    if turns == [] then State([], 0) else Take(webhooks, Consume(webhooks, turns[..|turns| - 1]), turns[|turns| - 1])
  }

  ghost predicate Emitted(s: State, webhook: Message) {
    exists k :: 0 <= k < |s.enriched| && Enrichment.EmissionOf(webhook, s.enriched[k])
  }

  ghost predicate EmittedBelow(webhooks: seq<Message>, s: State, n: nat) {
    forall i :: 0 <= i < n && i < |webhooks| ==> Emitted(s, webhooks[i])
  }

  /** One of the first n turns fetched this offset and had its write acknowledged. */
  ghost predicate AckedBefore(turns: seq<Turn>, n: nat, offset: nat) {
    exists m :: 0 <= m < n && m < |turns| && turns[m].offset == offset && turns[m].write.Acknowledged?
  }

  /** The fetch contract: an offset is handed out only after every earlier one was fetched and
      acknowledged. */
  ghost predicate AlwaysRedelivers(webhooks: seq<Message>, turns: seq<Turn>) {
    forall n, i :: 0 <= n < |turns| && 0 <= i < turns[n].offset && i < |webhooks| ==> AckedBefore(turns, n, i)
  }

  lemma OutputIsEmission(msg: Message, w: Enrichment.World)
    ensures Enrichment.EmissionOf(msg, Enrichment.Output(msg, w))
  {
    hide Enrichment.Enrich;
    assert Enrichment.Emits(msg, w, Enrichment.Output(msg, w));
  }

  lemma EmittedForGood(webhooks: seq<Message>, s: State, turn: Turn, webhook: Message)
    requires Emitted(s, webhook)
    ensures Emitted(Take(webhooks, s, turn), webhook)
  {
    hide Enrichment.EmissionOf, Enrichment.Output;
    var k :| 0 <= k < |s.enriched| && Enrichment.EmissionOf(webhook, s.enriched[k]);
    assert Take(webhooks, s, turn).enriched[k] == s.enriched[k];
  }

  /** The turn wrote, acknowledged or not, a message that is an emission of this webhook. */
  ghost predicate Emits(webhooks: seq<Message>, turn: Turn, webhook: Message) {
    turn.offset < |webhooks| && !turn.write.Failed?
    && Enrichment.EmissionOf(webhook, Enrichment.Output(webhooks[turn.offset], turn.world))
  }

  lemma TurnEmits(webhooks: seq<Message>, s: State, turn: Turn, webhook: Message)
    ensures Emitted(Take(webhooks, s, turn), webhook) <==> Emitted(s, webhook) || Emits(webhooks, turn, webhook)
  {
    hide Enrichment.EmissionOf, Enrichment.Output;
    var s' := Take(webhooks, s, turn);
    if Emitted(s, webhook) {
      EmittedForGood(webhooks, s, turn, webhook);
    }
    if Emits(webhooks, turn, webhook) {
      assert s'.enriched[|s.enriched|] == Enrichment.Output(webhooks[turn.offset], turn.world);
    }
    if Emitted(s', webhook) {
      var k :| 0 <= k < |s'.enriched| && Enrichment.EmissionOf(webhook, s'.enriched[k]);
      assert k < |s.enriched| ==> s'.enriched[k] == s.enriched[k];
    }
  }

  ghost predicate EmittedBy(webhooks: seq<Message>, turns: seq<Turn>, webhook: Message) {
    exists m :: 0 <= m < |turns| && Emits(webhooks, turns[m], webhook)
  }

  /** Whether a webhook has been emitted can be read off the turns. */
  lemma {:induction false} EmittedIff(webhooks: seq<Message>, turns: seq<Turn>, webhook: Message)
    ensures Emitted(Consume(webhooks, turns), webhook) <==> EmittedBy(webhooks, turns, webhook)
  {
    hide Take, Emits;
    if turns != [] {
      var before, turn := turns[..|turns| - 1], turns[|turns| - 1];
      EmittedIff(webhooks, before, webhook);
      TurnEmits(webhooks, Consume(webhooks, before), turn, webhook);
      hide Emitted;
      assert forall m :: 0 <= m < |before| ==> before[m] == turns[m];
    }
  }

  /** The committed offset is one past an acknowledged one. */
  lemma {:induction false} MarkIsAcked(webhooks: seq<Message>, turns: seq<Turn>) returns (m: nat)
    requires Consume(webhooks, turns).mark > 0
    ensures m < |turns| && turns[m].offset == Consume(webhooks, turns).mark - 1 < |webhooks|
    ensures turns[m].write.Acknowledged?
  {
    hide Enrichment.Output;
    var before, turn := turns[..|turns| - 1], turns[|turns| - 1];
    if turn.offset < |webhooks| && turn.write.Acknowledged? && turn.offsetCommitted {
      m := |before|;
    } else {
      m := MarkIsAcked(webhooks, before);
    }
  }

  lemma AckedIsEmitted(webhooks: seq<Message>, turns: seq<Turn>, m: nat)
    requires m < |turns| && turns[m].offset < |webhooks| && turns[m].write.Acknowledged?
    ensures Emitted(Consume(webhooks, turns), webhooks[turns[m].offset])
  {
    OutputIsEmission(webhooks[turns[m].offset], turns[m].world);
    EmittedIff(webhooks, turns, webhooks[turns[m].offset]);
    hide Emitted, Consume, Enrichment.EmissionOf, Enrichment.Output;
    assert Emits(webhooks, turns[m], webhooks[turns[m].offset]);
  }

  /** Under the fetch contract every webhook below the committed offset has been emitted,
      whatever writes and commits failed. */
  lemma WebhooksAreEmitted(webhooks: seq<Message>, turns: seq<Turn>)
    requires AlwaysRedelivers(webhooks, turns)
    ensures EmittedBelow(webhooks, Consume(webhooks, turns), Consume(webhooks, turns).mark)
  {
    hide Emitted, Take;
    var s := Consume(webhooks, turns);
    forall i | 0 <= i < s.mark && i < |webhooks| ensures Emitted(s, webhooks[i]) {
      var last := MarkIsAcked(webhooks, turns);
      if i == s.mark - 1 {
        AckedIsEmitted(webhooks, turns, last);
      } else {
        assert AckedBefore(turns, last, i);
        var m :| 0 <= m < last && turns[m].offset == i && turns[m].write.Acknowledged?;
        AckedIsEmitted(webhooks, turns, m);
      }
    }
  }

  /** A run has emitted every webhook below the committed offset exactly when, for each of them,
      some turn wrote a message that is an emission of it. */
  lemma EmittedBelowIff(webhooks: seq<Message>, turns: seq<Turn>)
    ensures EmittedBelow(webhooks, Consume(webhooks, turns), Consume(webhooks, turns).mark)
       <==> forall i :: 0 <= i < Consume(webhooks, turns).mark && i < |webhooks|
                        ==> EmittedBy(webhooks, turns, webhooks[i])
  {
    hide Emitted, EmittedBy, Consume;
    forall i | 0 <= i < |webhooks|
      ensures Emitted(Consume(webhooks, turns), webhooks[i]) <==> EmittedBy(webhooks, turns, webhooks[i])
    {
      EmittedIff(webhooks, turns, webhooks[i]);
    }
  }

  /** Turns that write and commit the webhooks from this offset on, in order, to the end of the log. */
  ghost predicate CatchesUp(webhooks: seq<Message>, from: nat, more: seq<Turn>) {
    && |more| == |webhooks| - from
    && forall k :: 0 <= k < |more| ==>
         more[k].offset == from + k && more[k].write.Acknowledged? && more[k].offsetCommitted
  }

  lemma CalmTurn(webhooks: seq<Message>, turns: seq<Turn>, turn: Turn)
    requires turn.offset < |webhooks| && turn.write.Acknowledged? && turn.offsetCommitted
    ensures Consume(webhooks, turns + [turn])
         == State(Consume(webhooks, turns).enriched + [Enrichment.Output(webhooks[turn.offset], turn.world)],
                  turn.offset + 1)
  {
    hide Enrichment.Output;
    assert (turns + [turn])[..|turns|] == turns;
  }

  /** Whatever happened before, the webhooks from the mark on, fetched in order with every write and
      commit going through, end with all of them emitted once more, in order, and every offset
      committed. */
  lemma {:induction false} CalmRunsFinish(webhooks: seq<Message>, turns: seq<Turn>, more: seq<Turn>, n: nat)
    requires CatchesUp(webhooks, Consume(webhooks, turns).mark, more) && n <= |more|
    ensures var s, s' := Consume(webhooks, turns), Consume(webhooks, turns + more[..n]);
            && s'.mark == s.mark + n && |s'.enriched| == |s.enriched| + n && s.enriched <= s'.enriched
            && forall j :: |s.enriched| <= j < |s.enriched| + n ==>
                 Enrichment.EmissionOf(webhooks[s.mark + j - |s.enriched|], s'.enriched[j])
  {
    hide Enrichment.Output, Enrichment.EmissionOf, Consume;
    if n == 0 {
      assert turns + more[..0] == turns;
    } else {
      CalmRunsFinish(webhooks, turns, more, n - 1);
      var turn := more[n - 1];
      assert turns + more[..n] == (turns + more[..n - 1]) + [turn];
      CalmTurn(webhooks, turns + more[..n - 1], turn);
      OutputIsEmission(webhooks[turn.offset], turn.world);
    }
  }

  /** Without the contract: a failed write followed by one that succeeds on the next webhook
      commits past a webhook that was never emitted. */
  lemma MovingOnSkipsWebhooks(a: Message, b: Message, w: Enrichment.World)
    requires HeaderText(a.headers, HEADER_DELIVERY) != HeaderText(b.headers, HEADER_DELIVERY)
    ensures var turns := [Turn(0, w, Failed, true), Turn(1, w, Acknowledged, true)];
            && Consume([a, b], turns).mark == 2 && !Emitted(Consume([a, b], turns), a)
            && !AlwaysRedelivers([a, b], turns)
  {
    var webhooks, first, second := [a, b], Turn(0, w, Failed, true), Turn(1, w, Acknowledged, true);
    var turns := [first, second];
    assert turns[..1] == [first] && [first][..0] == [];
    EmittedIff(webhooks, turns, a);
    OutputIsEmission(b, w);
    hide Enrichment.Enrich;
    assert !AckedBefore(turns, 1, 0);
    assert turns[1].offset == 1;
  }

  /** The enriched topic holds nothing but emissions of webhooks. */
  lemma {:induction false} EmissionsHaveWebhooks(webhooks: seq<Message>, turns: seq<Turn>, k: nat) returns (i: nat)
    requires k < |Consume(webhooks, turns).enriched|
    ensures i < |webhooks| && Enrichment.EmissionOf(webhooks[i], Consume(webhooks, turns).enriched[k])
    decreases |turns|
  {
    hide Enrichment.EmissionOf, Enrichment.Output;
    var before, turn := turns[..|turns| - 1], turns[|turns| - 1];
    if k < |Consume(webhooks, before).enriched| {
      i := EmissionsHaveWebhooks(webhooks, before, k);
    } else {
      i := turn.offset;
      OutputIsEmission(webhooks[i], turn.world);
    }
  }

  /** services/connector-github: the topic it writes and its retry counter. */
  class Service {
    var enriched: seq<Message>
    var attempt: nat

    constructor ()
      ensures enriched == [] && attempt == 0
    {
      enriched, attempt := [], 0;
    }

    /** One turn of main's loop after Fetch: whether it commits the offset, and otherwise how
        long it sleeps. */
    method Handle(msg: Message, world: Enrichment.World, write: WriteFate) returns (commit: bool, delay: nat)
      modifies this
      ensures enriched == Take([msg], State(old(enriched), 0), Turn(0, world, write, false)).enriched
      ensures commit == write.Acknowledged? && attempt == if commit then 0 else old(attempt) + 1
      ensures commit || delay == Backoff.Delay(attempt)
    {
      delay := 0;
      var out := Enrichment.Process(msg, world);
      if !write.Failed? {
        enriched := enriched + [out];
      }
      commit := write.Acknowledged?;
      if commit {
        attempt := 0;
      } else {
        attempt := attempt + 1;
        delay := Backoff.Backoff(attempt);
      }
    }
  }
}
