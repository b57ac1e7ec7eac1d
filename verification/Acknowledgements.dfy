/** The acknowledgement side of the Kafka bridge: offsets are acknowledged in any order by the asyncio
    side and committed by the polling thread as one contiguous prefix per partition. */
module Acknowledgements {
  import opened Events

  const HANDOFF_MAX_SIZE := 10000

  type PendingMap = map<TopicPartition, map<nat, Consumed>>

  /** The in-memory state of the bridge as a value. */
  datatype Bridge = Bridge(
    queue: seq<Consumed>,
    acks: seq<Consumed>,
    pending: PendingMap,
    next: map<TopicPartition, nat>)

  const EMPTY_BRIDGE := Bridge([], [], map[], map[])

  /** What the broker answers to a commit. A failed commit may still have landed for some partitions. */
  datatype CommitAnswer = Accepted | Failed(landed: set<TopicPartition>)

  function Track(b: Bridge, c: Consumed): Bridge {
    if c.tp in b.next then b else b.(next := b.next[c.tp := c.offset])
  }

  function Acknowledge(b: Bridge, c: Consumed): Bridge {
    b.(acks := b.acks + [c])
  }

  function Absorbed(pending: PendingMap, acks: seq<Consumed>): PendingMap {
    if acks == [] then pending
    else
      var before := Absorbed(pending, acks[..|acks| - 1]);
      var c := acks[|acks| - 1];
      before[c.tp := (if c.tp in before then before[c.tp] else map[])[c.offset := c]]
  }

  ghost function AckedFrom(acked: map<nat, Consumed>, start: nat): set<nat> {
    set o | o in acked.Keys && start <= o
  }

  /** The first offset from `start` on that is not acknowledged. */
  function Cursor(acked: map<nat, Consumed>, start: nat): (cursor: nat)
    ensures start <= cursor && cursor !in acked
    ensures forall o | start <= o < cursor :: o in acked
    decreases AckedFrom(acked, start)
  {
    if start in acked then
      assert start in AckedFrom(acked, start) && start !in AckedFrom(acked, start + 1);
      Cursor(acked, start + 1)
    else start
  }

  function Advances(pending: PendingMap, next: map<TopicPartition, nat>): map<TopicPartition, nat> {
    map tp | tp in pending && tp in next && next[tp] < Cursor(pending[tp], next[tp]) :: Cursor(pending[tp], next[tp])
  }

  function Without(acked: map<nat, Consumed>, start: nat, cursor: nat): map<nat, Consumed> {
    map o | o in acked && !(start <= o < cursor) :: acked[o]
  }

  function Trimmed(pending: PendingMap, next: map<TopicPartition, nat>, advances: map<TopicPartition, nat>): PendingMap
    requires advances.Keys <= next.Keys
  {
    map tp | tp in pending :: if tp in advances then Without(pending[tp], next[tp], advances[tp]) else pending[tp]
  }

  /** What one drain asks the broker to commit. */
  function Proposed(b: Bridge): map<TopicPartition, nat> {
    Advances(Absorbed(b.pending, b.acks), b.next)
  }

  function Drained(b: Bridge, accepted: bool): Bridge {
    var pending := Absorbed(b.pending, b.acks);
    var advances := Advances(pending, b.next);
    if accepted then b.(acks := [], pending := Trimmed(pending, b.next, advances), next := b.next + advances)
    else b.(acks := [], pending := pending)
  }

  function AfterCommit(committed: map<TopicPartition, nat>, offsets: map<TopicPartition, nat>, answer: CommitAnswer)
    : map<TopicPartition, nat>
  {
    match answer
    case Accepted => committed + offsets
    case Failed(landed) => committed + map tp | tp in offsets && tp in landed :: offsets[tp]
  }

  /** The offsets of a partition known to be acknowledged, moved out of the queue already or not. */
  ghost function Acked(b: Bridge, tp: TopicPartition): iset<nat> {
    iset o: nat | (tp in b.pending && o in b.pending[tp]) || Position(tp, o) in Places(b.acks)
  }

  ghost predicate AgreeFrom(acked1: iset<nat>, acked2: iset<nat>, start: nat) {
    forall o: nat | start <= o :: o in acked1 <==> o in acked2
  }

  /** `cursor` is the end of the unbroken acknowledged stretch that begins at `start`. */
  ghost predicate IsCursor(acked: iset<nat>, start: nat, cursor: nat) {
    start <= cursor && cursor !in acked && forall o: nat | start <= o < cursor :: o in acked
  }

  lemma CursorIsUnique(acked1: iset<nat>, acked2: iset<nat>, start: nat, c1: nat, c2: nat)
    requires IsCursor(acked1, start, c1) && IsCursor(acked2, start, c2)
    requires AgreeFrom(acked1, acked2, start)
    ensures c1 == c2
  {
    assert c1 in acked1 <==> c1 in acked2;
    assert c2 in acked1 <==> c2 in acked2;
  }

  lemma {:induction false} AbsorbedHolds(pending: PendingMap, acks: seq<Consumed>, p: Position)
    ensures var after := Absorbed(pending, acks);
      (p.tp in after && p.offset in after[p.tp]) <==>
      ((p.tp in pending && p.offset in pending[p.tp]) || p in Places(acks))
  {
    if acks != [] {
      var front, c := acks[..|acks| - 1], acks[|acks| - 1];
      AbsorbedHolds(pending, front, p);
      assert acks == front + [c];
      PlacesOfAppend(front, [c]);
      assert Places([c]) == {c.Place()} by { assert c in [c]; }
    }
  }

  /** A successful drain moves a partition to the greatest cursor whose whole interval is acknowledged,
      and exactly the committed interval leaves the pending set. A partition without a starting point
      never moves. */
  lemma DrainIsExact(b: Bridge, tp: TopicPartition)
    ensures var after := Drained(b, true);
      && after.next.Keys == b.next.Keys
      && (tp in b.next ==>
            && IsCursor(Acked(b, tp), b.next[tp], after.next[tp])
            && Acked(after, tp) == iset o | o in Acked(b, tp) && !(b.next[tp] <= o < after.next[tp]))
      && (tp !in b.next ==> Acked(after, tp) == Acked(b, tp))
  {
    forall o: nat { AbsorbedHolds(b.pending, b.acks, Position(tp, o)); }
    assert Places([]) == {};
  }

  /** With every acknowledgement at or past the cursor, nothing at or below the new cursor stays pending. */
  lemma DrainLeavesNothingBehind(b: Bridge, tp: TopicPartition)
    requires tp in b.next && forall o | o in Acked(b, tp) :: b.next[tp] <= o
    ensures forall o | o in Acked(Drained(b, true), tp) :: Drained(b, true).next[tp] < o
  {
    DrainIsExact(b, tp);
  }

  lemma FailedDrainKeepsAcknowledgements(b: Bridge, tp: TopicPartition)
    ensures Drained(b, false).next == b.next && Acked(Drained(b, false), tp) == Acked(b, tp)
  {
    forall o: nat { AbsorbedHolds(b.pending, b.acks, Position(tp, o)); }
    assert Places([]) == {};
  }

  ghost function OffsetsIn(cs: seq<Consumed>, tp: TopicPartition): iset<nat> {
    iset o: nat | Position(tp, o) in Places(cs)
  }

  lemma OffsetsOfAppend(cs: seq<Consumed>, c: Consumed, tp: TopicPartition)
    ensures OffsetsIn(cs + [c], tp) == OffsetsIn(cs, tp) + OffsetsIn([c], tp)
  {
    PlacesOfAppend(cs, [c]);
  }

  lemma AckedAfterMore(b: Bridge, more: seq<Consumed>, tp: TopicPartition)
    ensures Acked(b.(acks := b.acks + more), tp) == Acked(b, tp) + OffsetsIn(more, tp)
  {
    PlacesOfAppend(b.acks, more);
  }

  /** The order in which acknowledgements arrive does not matter. */
  lemma DrainIgnoresAckOrder(b: Bridge, acks1: seq<Consumed>, acks2: seq<Consumed>, tp: TopicPartition)
    requires multiset(acks1) == multiset(acks2)
    ensures var b1, b2 := Drained(b.(acks := acks1), true), Drained(b.(acks := acks2), true);
      (tp in b.next ==> b1.next[tp] == b2.next[tp]) && Acked(b1, tp) == Acked(b2, tp)
  {
    forall c ensures c in acks1 <==> c in acks2 {
      assert c in multiset(acks1) <==> c in multiset(acks2);
    }
    assert Places(acks1) == Places(acks2);
    var b1, b2 := b.(acks := acks1), b.(acks := acks2);
    DrainIsExact(b1, tp);
    DrainIsExact(b2, tp);
    assert Acked(b1, tp) == Acked(b2, tp);
    if tp in b.next {
      CursorIsUnique(Acked(b1, tp), Acked(b2, tp), b.next[tp], Drained(b1, true).next[tp], Drained(b2, true).next[tp]);
    }
  }

  /** After a failed commit the next successful drain reaches at least as far. */
  lemma FailedCommitIsMadeUp(b: Bridge, more: seq<Consumed>, tp: TopicPartition)
    requires tp in b.next
    ensures var failed := Drained(b, false);
      Drained(b, true).next[tp] <= Drained(failed.(acks := failed.acks + more), true).next[tp]
  {
    var failed := Drained(b, false);
    var later := failed.(acks := failed.acks + more);
    DrainIsExact(b, tp);
    DrainIsExact(later, tp);
    FailedDrainKeepsAcknowledgements(b, tp);
    AckedAfterMore(failed, more, tp);
    var reached := Drained(later, true).next[tp];
    assert reached !in Acked(b, tp);
  }

  /** The reference the coalesced commit replaces: one commit after every single acknowledgement. */
  function DrainedOneByOne(b: Bridge, acks: seq<Consumed>): Bridge {
    if acks == [] then b
    else Drained(Acknowledge(DrainedOneByOne(b, acks[..|acks| - 1]), acks[|acks| - 1]), true)
  }

  /** `b` stands at the cursor that `acked` reaches from `start`, and agrees with it beyond. */
  ghost predicate StandsAt(b: Bridge, tp: TopicPartition, start: nat, acked: iset<nat>) {
    tp in b.next && IsCursor(acked, start, b.next[tp]) && AgreeFrom(Acked(b, tp), acked, b.next[tp])
  }

  lemma OneMoreAcknowledgement(one: Bridge, c: Consumed, tp: TopicPartition, start: nat, acked: iset<nat>)
    requires one.acks == [] && StandsAt(one, tp, start, acked)
    ensures StandsAt(Drained(Acknowledge(one, c), true), tp, start, acked + OffsetsIn([c], tp))
  {
    AckedAfterMore(one, [c], tp);
    DrainIsExact(Acknowledge(one, c), tp);
    forall o: nat | start <= o < Drained(Acknowledge(one, c), true).next[tp]
      ensures o in acked + OffsetsIn([c], tp)
    {
      if one.next[tp] <= o {
        assert o in Acked(Acknowledge(one, c), tp);
      }
    }
  }

  lemma {:induction false} OneByOneStandsAt(b: Bridge, acks: seq<Consumed>, tp: TopicPartition)
    requires b.acks == [] && tp in b.next && acks != []
    ensures var one := DrainedOneByOne(b, acks);
      one.acks == [] && StandsAt(one, tp, b.next[tp], Acked(b, tp) + OffsetsIn(acks, tp))
  {
    hide OffsetsIn, Acked, Absorbed, Advances, Trimmed;
    var front, c := acks[..|acks| - 1], acks[|acks| - 1];
    OffsetsOfAppend(front, c, tp);
    assert acks == front + [c];
    if front == [] {
      AckedAfterMore(b, [c], tp);
      DrainIsExact(Acknowledge(b, c), tp);
      assert DrainedOneByOne(b, front) == b && acks == [c];
    } else {
      OneByOneStandsAt(b, front, tp);
      var before := Acked(b, tp) + OffsetsIn(front, tp);
      OneMoreAcknowledgement(DrainedOneByOne(b, front), c, tp, b.next[tp], before);
      assert before + OffsetsIn([c], tp) == Acked(b, tp) + OffsetsIn(acks, tp);
    }
  }

  /** Coalescing commits is invisible: one drain over all the acknowledgements ends at the same committed
      offset, with the same acknowledgements outstanding beyond it, as a commit per acknowledgement. */
  lemma CoalescedEqualsOneByOne(b: Bridge, acks: seq<Consumed>, tp: TopicPartition)
    requires b.acks == [] && acks != [] && tp in b.next
    ensures var one, all := DrainedOneByOne(b, acks), Drained(b.(acks := acks), true);
      && tp in one.next && one.next[tp] == all.next[tp]
      && AgreeFrom(Acked(one, tp), Acked(all, tp), one.next[tp])
  {
    var one, whole := DrainedOneByOne(b, acks), b.(acks := acks);
    OneByOneStandsAt(b, acks, tp);
    DrainIsExact(whole, tp);
    AckedAfterMore(b, acks, tp);
    assert whole == b.(acks := b.acks + acks);
    CursorIsUnique(Acked(whole, tp), Acked(whole, tp), b.next[tp], one.next[tp], Drained(whole, true).next[tp]);
  }

  /** The committed offsets the broker holds for the consumer group. */
  class Broker {
    var committed: map<TopicPartition, nat>

    constructor ()
      ensures committed == map[]
    {
      committed := map[];
    }

    method Commit(offsets: map<TopicPartition, nat>, answer: CommitAnswer) returns (ok: bool)
      modifies this
      ensures ok == answer.Accepted?
      ensures committed == AfterCommit(old(committed), offsets, answer)
    {
      ok := answer.Accepted?;
      committed := AfterCommit(committed, offsets, answer);
    }
  }

  class KafkaConsumerBridge {
    var queue: seq<Consumed>
    var acknowledgements: seq<Consumed>
    var pendingAcknowledgements: PendingMap
    var nextCommitOffsets: map<TopicPartition, nat>

    function View(): Bridge
      reads this
    {
      Bridge(queue, acknowledgements, pendingAcknowledgements, nextCommitOffsets)
    }

    constructor ()
      ensures View() == EMPTY_BRIDGE
    {
      queue, acknowledgements, pendingAcknowledgements, nextCommitOffsets := [], [], map[], map[];
    }

    method TrackConsumed(c: Consumed)
      modifies this`nextCommitOffsets
      ensures View() == Track(old(View()), c)
    {
      if c.tp !in nextCommitOffsets {
        nextCommitOffsets := nextCommitOffsets[c.tp := c.offset];
      }
    }

    method Handoff(c: Consumed) returns (ok: bool)
      modifies this`queue
      ensures ok == (old(|queue|) < HANDOFF_MAX_SIZE)
      ensures queue == if ok then old(queue) + [c] else old(queue)
    {
      ok := |queue| < HANDOFF_MAX_SIZE;
      if ok {
        queue := queue + [c];
      }
    }

    method AcknowledgeConsumed(c: Consumed)
      modifies this`acknowledgements
      ensures View() == Acknowledge(old(View()), c)
    {
      acknowledgements := acknowledgements + [c];
    }

    method AbsorbAcknowledgements()
      modifies this`acknowledgements, this`pendingAcknowledgements
      ensures acknowledgements == []
      ensures pendingAcknowledgements == Absorbed(old(pendingAcknowledgements), old(acknowledgements))
    {
      ghost var taken: seq<Consumed> := [];
      while acknowledgements != []
        invariant taken + acknowledgements == old(acknowledgements)
        invariant pendingAcknowledgements == Absorbed(old(pendingAcknowledgements), taken)
      {
        var c := acknowledgements[0];
        acknowledgements := acknowledgements[1..];
        var acked := if c.tp in pendingAcknowledgements then pendingAcknowledgements[c.tp] else map[];
        pendingAcknowledgements := pendingAcknowledgements[c.tp := acked[c.offset := c]];
        assert (taken + [c])[..|taken|] == taken;
        taken := taken + [c];
      }
      assert taken == old(acknowledgements);
    }

    method FindAdvances() returns (advances: map<TopicPartition, nat>)
      ensures advances == Advances(pendingAcknowledgements, nextCommitOffsets)
    {
      advances := map[];
      var todo := pendingAcknowledgements.Keys;
      ghost var all := Advances(pendingAcknowledgements, nextCommitOffsets);
      while todo != {}
        invariant todo <= pendingAcknowledgements.Keys
        invariant advances == map tp | tp in all && tp !in todo :: all[tp]
        decreases todo
      {
        var tp :| tp in todo;
        todo := todo - {tp};
        if tp in nextCommitOffsets {
          var acked, start := pendingAcknowledgements[tp], nextCommitOffsets[tp];
          var cursor := start;
          while cursor in acked
            invariant start <= cursor && Cursor(acked, cursor) == Cursor(acked, start)
            decreases Cursor(acked, start) - cursor
          {
            cursor := cursor + 1;
          }
          if cursor > start {
            advances := advances[tp := cursor];
          }
        }
      }
    }

    static method PopRange(acked: map<nat, Consumed>, start: nat, cursor: nat) returns (left: map<nat, Consumed>)
      requires start <= cursor
      ensures left == Without(acked, start, cursor)
    {
      left := acked;
      var offset: nat := start;
      while offset < cursor
        invariant start <= offset <= cursor
        invariant left == Without(acked, start, offset)
      {
        left := left - {offset};
        offset := offset + 1;
      }
    }

    method ForgetCommitted(advances: map<TopicPartition, nat>)
      requires advances.Keys <= nextCommitOffsets.Keys && advances.Keys <= pendingAcknowledgements.Keys
      requires forall tp | tp in advances :: nextCommitOffsets[tp] <= advances[tp]
      modifies this`pendingAcknowledgements, this`nextCommitOffsets
      ensures pendingAcknowledgements == Trimmed(old(pendingAcknowledgements), old(nextCommitOffsets), advances)
      ensures nextCommitOffsets == old(nextCommitOffsets) + advances
    {
      ghost var pending, next := pendingAcknowledgements, nextCommitOffsets;
      var todo := advances.Keys;
      while todo != {}
        invariant todo <= advances.Keys
        invariant pendingAcknowledgements.Keys == pending.Keys && nextCommitOffsets.Keys == next.Keys
        invariant forall tp | tp in pending && (tp in todo || tp !in advances) ::
          pendingAcknowledgements[tp] == pending[tp]
        invariant forall tp | tp in next && (tp in todo || tp !in advances) :: nextCommitOffsets[tp] == next[tp]
        invariant forall tp | tp in advances && tp !in todo ::
                    && nextCommitOffsets[tp] == advances[tp]
                    && pendingAcknowledgements[tp] == Without(pending[tp], next[tp], advances[tp])
        decreases todo
      {
        var tp :| tp in todo;
        var left := PopRange(pendingAcknowledgements[tp], nextCommitOffsets[tp], advances[tp]);
        pendingAcknowledgements := pendingAcknowledgements[tp := left];
        nextCommitOffsets := nextCommitOffsets[tp := advances[tp]];
        todo := todo - {tp};
      }
    }

    /** One drain: absorb the acknowledgement queue, find the contiguous prefix of every partition,
        commit them together, and forget what was committed only if the commit was accepted. */
    method DrainAcknowledgements(consumer: Broker, answer: CommitAnswer)
      modifies this, consumer
      ensures View() == Drained(old(View()), answer.Accepted?)
      ensures consumer.committed == AfterCommit(old(consumer.committed), Proposed(old(View())), answer)
    {
      AbsorbAcknowledgements();
      var advances := FindAdvances();
      if advances == map[] {
        assert Trimmed(pendingAcknowledgements, nextCommitOffsets, advances) == pendingAcknowledgements;
        assert nextCommitOffsets + advances == nextCommitOffsets;
        assert AfterCommit(consumer.committed, advances, answer) == consumer.committed;
        return;
      }
      var ok := consumer.Commit(advances, answer);
      if !ok {
        return;
      }
      ForgetCommitted(advances);
    }
  }
}
