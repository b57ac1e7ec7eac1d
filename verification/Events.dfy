/** The values every component of the pipeline exchanges: market events, the snapshot kept per symbol,
    and the partitioned log both consumers read. Prices are reals, times are integers in milliseconds. */
module Events {

  datatype Option<+T> = None | Some(value: T)

  datatype Symbol = Symbol(name: string)

  datatype EventKind = Quote | Trade | SnapshotKind

  datatype MarketEvent = MarketEvent(
    symbol: Symbol, bid: real, ask: real, bidSize: int, askSize: int,
    eventTs: int, serverTs: int, seqNo: int, kind: EventKind)

  datatype SnapshotData = SnapshotData(
    symbol: Symbol, bid: real, ask: real, bidSize: int, askSize: int, seqNo: int, ts: int)

  function SnapshotOf(e: MarketEvent): SnapshotData {
    SnapshotData(e.symbol, e.bid, e.ask, e.bidSize, e.askSize, e.seqNo, e.serverTs)
  }

  datatype TopicPartition = TopicPartition(topic: string, partition: int)

  /** A log record either parses to an event or does not. */
  datatype Record = Valid(event: MarketEvent) | Malformed

  type Log = map<TopicPartition, seq<Record>>

  datatype Position = Position(tp: TopicPartition, offset: nat)

  /** A parsed record together with the place it was read from. */
  datatype Consumed = Consumed(event: MarketEvent, tp: TopicPartition, offset: nat) {
    function Place(): Position { Position(tp, offset) }
  }

  predicate ValidAt(log: Log, p: Position) {
    p.tp in log && p.offset < |log[p.tp]| && log[p.tp][p.offset].Valid?
  }

  function EventAt(log: Log, p: Position): MarketEvent
    requires ValidAt(log, p)
  {
    log[p.tp][p.offset].event
  }

  function Places(cs: seq<Consumed>): set<Position> {
    set c | c in cs :: c.Place()
  }

  lemma PlacesOfOne(c: Consumed)
    ensures Places([c]) == {c.Place()}
  {
    assert c in [c];
  }

  lemma PlacesOfAppend(cs: seq<Consumed>, more: seq<Consumed>)
    ensures Places(cs + more) == Places(cs) + Places(more)
  {
    forall p | p in Places(cs) + Places(more) ensures p in Places(cs + more) {
      if p in Places(cs) {
        var c :| c in cs && c.Place() == p;
        assert c in cs + more;
      } else {
        var c :| c in more && c.Place() == p;
        assert c in cs + more;
      }
    }
  }
}
