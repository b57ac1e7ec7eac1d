/** One client's stream as a protocol: fan-out into initialisation buffers and the aggregator, the
    subscribe hand-off, classification, gap recovery whose snapshot fetch suspends, filters, and the
    bounded queue to the socket. What arrives from Pub/Sub and what Redis answers is arbitrary here.
    Each step is one stretch of code between two suspension points. Every sequence of steps is a run; a
    step that the current state does not allow changes nothing. */
module Streams {
  import opened Events
  import opened Sequencing
  import opened Aggregation
  import opened Session
  import opened DropOldest

  const INITIALIZATION_BUFFER_MAX_SIZE := 500

  datatype Initialization = Initialization(symbol: Symbol, filter: Option<Filter>, events: seq<MarketEvent>,
    overflowed: bool)

  /** The subscribe call in progress, if any; a client's calls are handled one after the other. */
  datatype Joining =
    | NotJoining
    | Buffering(init: Initialization)
    | SnapshotRead(init: Initialization, snapshot: Option<SnapshotData>)

  /** The dispatch loop: idle, suspended in the snapshot fetch of a gap, or ended by a failed fetch. */
  datatype Dispatch =
    | Idle
    | Fetching(event: MarketEvent)
    | Fetched(event: MarketEvent, snapshot: Option<SnapshotData>)
    | Dead

  /** From one activation of a symbol to its next activation or unsubscribe. */
  datatype Epoch = Epoch(id: nat, filter: Option<Filter>)

  /** An enqueued message and the epoch of its symbol at that moment. */
  datatype Entry = Entry(msg: Message, epoch: Option<Epoch>)

  datatype Stream = Stream(
    aggregator: Aggregator,
    out: Outbound,
    lastSeq: map<Symbol, int>,
    lastPrice: map<Symbol, real>,
    filters: map<Symbol, Filter>,
    subscriptions: set<Symbol>,
    joining: Joining,
    dispatch: Dispatch,
    // what has happened: everything enqueued, which of it reached the writer, and the epochs
    hist: seq<Entry>,
    taken: seq<nat>,
    epochs: map<Symbol, Epoch>,
    epochCount: nat,
    overflowed: bool)

  datatype Step =
    | Deliver(event: MarketEvent)
    | FlushWindow
    | Join(symbol: Symbol, filter: Option<Filter>)
    | ReadSnapshot(snapshot: Option<SnapshotData>)
    | JoinFails(reason: string)
    | Activate
    | Leave(symbol: Symbol)
    | DispatchNext
    | FetchAnswers(snapshot: Option<SnapshotData>)
    | FetchFails
    | Recover
    | Notify(text: string)
    | WriterTakes

  function Connected(mode: Mode, policy: Policy): Stream {
    Stream(Aggregator(mode, [], []), Outbound(policy, [], 0, false), map[], map[], map[], {}, NotJoining, Idle,
           [], [], map[], 0, false)
  }

  function Lookup<K, V>(m: map<K, V>, k: K): Option<V> {
    if k in m then Some(m[k]) else None
  }

  // ---- sorting the initialisation buffer ----

  function InsertBySeq(sorted: seq<MarketEvent>, e: MarketEvent): seq<MarketEvent> {
    if sorted == [] then [e]
    else
      var front, top := sorted[..|sorted| - 1], sorted[|sorted| - 1];
      if top.seqNo <= e.seqNo then sorted + [e] else InsertBySeq(front, e) + [top]
  }

  /** Stable sort by sequence number. */
  function SortBySeq(events: seq<MarketEvent>): seq<MarketEvent> {
    if events == [] then [] else InsertBySeq(SortBySeq(events[..|events| - 1]), events[|events| - 1])
  }

  /** The buffered events that the snapshot does not cover. */
  function Newer(events: seq<MarketEvent>, snapshot: Option<SnapshotData>): seq<MarketEvent> {
    if events == [] then []
    else
      var front, e := Newer(events[..|events| - 1], snapshot), events[|events| - 1];
      if snapshot.None? || snapshot.value.seqNo < e.seqNo then front + [e] else front
  }

  function PushAll(a: Aggregator, events: seq<MarketEvent>): (after: Aggregator)
    ensures after.mode == a.mode
  {
    if events == [] then a else Pushed(PushAll(a, events[..|events| - 1]), events[|events| - 1])
  }

  // ---- the steps ----

  /** Puts a message in the outbound queue, if the policy lets it in. */
  function Offered(s: Stream, m: Message): (t: Stream)
    ensures t == s.(out := t.out, hist := t.hist) && t.out.policy == s.out.policy
  {
    var epoch := if m.IsData() then Lookup(s.epochs, m.SymbolOf()) else None;
    s.(out := Enqueued(s.out, m), hist := if Accepts(s.out) then s.hist + [Entry(m, epoch)] else s.hist)
  }

  /** The aggregator's output queue would drop its oldest event to take `more` events. */
  predicate Overflows(a: Aggregator, more: nat) {
    OUTPUT_MAX_SIZE < |a.output| + more
  }

  function Delivered(s: Stream, e: MarketEvent): Stream {
    var joining := NotedIn(s.joining, e);
    if e.symbol in s.subscriptions then
      s.(joining := joining, aggregator := Pushed(s.aggregator, e),
         overflowed := s.overflowed || (s.aggregator.mode.Raw? && Overflows(s.aggregator, 1)))
    else s.(joining := joining)
  }

  function NotedIn(joining: Joining, e: MarketEvent): Joining {
    if joining.Buffering? && joining.init.symbol == e.symbol then Buffering(Noted(joining.init, e))
    else if joining.SnapshotRead? && joining.init.symbol == e.symbol then
      SnapshotRead(Noted(joining.init, e), joining.snapshot)
    else joining
  }

  function Noted(init: Initialization, e: MarketEvent): Initialization {
    if INITIALIZATION_BUFFER_MAX_SIZE <= |init.events| then init.(overflowed := true)
    else init.(events := init.events + [e])
  }

  function WindowFlushed(s: Stream): Stream {
    s.(aggregator := Flushed(s.aggregator),
       overflowed := s.overflowed || (s.aggregator.mode.Agg? && Overflows(s.aggregator, |s.aggregator.window|)))
  }

  function JoinFailed(s: Stream, reason: string): Stream {
    if s.joining.NotJoining? then s else Offered(s.(joining := NotJoining), Notice(reason))
  }

  function Activated(s: Stream): Stream {
    if !s.joining.SnapshotRead? then s
    else
      var init, snapshot := s.joining.init, s.joining.snapshot;
      if init.overflowed then JoinFailed(s, "subscription failed")
      else if snapshot.Some? && !Accepts(s.out) then
        JoinFailed(Offered(s, Snapshot(snapshot.value)), "subscription failed")
      else Joined(s, init, snapshot)
  }

  /** The registration: newer buffered events are released and a new epoch of the symbol begins. */
  function Registered(s: Stream, init: Initialization, snapshot: Option<SnapshotData>): Stream {
    var y, events := init.symbol, Newer(SortBySeq(init.events), snapshot);
    s.(epochs := s.epochs[y := Epoch(s.epochCount, init.filter)], epochCount := s.epochCount + 1, joining := NotJoining,
       subscriptions := s.subscriptions + {y}, aggregator := PushAll(s.aggregator, events),
       filters := if init.filter.Some? then s.filters[y := init.filter.value] else s.filters - {y},
       overflowed := s.overflowed || (s.aggregator.mode.Raw? && Overflows(s.aggregator, |events|)))
  }

  function Joined(s: Stream, init: Initialization, snapshot: Option<SnapshotData>): Stream {
    var t := Registered(s, init, snapshot);
    if snapshot.None? then t
    else
      var d := snapshot.value;
      Offered(t, Snapshot(d)).(lastSeq := t.lastSeq[init.symbol := d.seqNo],
        lastPrice := t.lastPrice[init.symbol := d.bid])
  }

  function Left(s: Stream, y: Symbol): Stream {
    if !s.joining.NotJoining? then s
    else s.(subscriptions := s.subscriptions - {y}, lastSeq := s.lastSeq - {y}, filters := s.filters - {y},
            lastPrice := s.lastPrice - {y}, epochs := s.epochs - {y})
  }

  function Dispatched(s: Stream): Stream {
    if !s.dispatch.Idle? || s.aggregator.output == [] then s
    else
      var e := s.aggregator.output[0];
      var rest := s.(aggregator := s.aggregator.(output := s.aggregator.output[1..]));
      match Classify(Lookup(s.lastSeq, e.symbol), e.seqNo, s.aggregator.mode.Raw?)
      case Stale => rest
      case Gap => rest.(dispatch := Fetching(e))
      case Next => Advanced(rest.(lastSeq := s.lastSeq[e.symbol := e.seqNo]), e)
  }

  /** The next event is enqueued unless the filter holds it back; only an enqueued one moves the price. */
  function Advanced(s: Stream, e: MarketEvent): (t: Stream)
    ensures t == s.(lastPrice := t.lastPrice, out := t.out, hist := t.hist)
  {
    if !ShouldDeliver(Lookup(s.filters, e.symbol), Lookup(s.lastPrice, e.symbol), e) then s
    else if !Accepts(s.out) then Offered(s, Incremental(e))
    else Offered(s, Incremental(e)).(lastPrice := s.lastPrice[e.symbol := e.bid])
  }

  /** The end of gap recovery: the baseline is read again after the fetch. */
  function Recovered(s: Stream): Stream {
    if !s.dispatch.Fetched? then s
    else
      var y, snapshot := s.dispatch.event.symbol, s.dispatch.snapshot;
      var done := s.(dispatch := Idle);
      if snapshot.None? || (y in s.lastSeq && snapshot.value.seqNo <= s.lastSeq[y]) then done
      else if !Accepts(s.out) then Offered(done, Snapshot(snapshot.value))
      else Offered(done, Snapshot(snapshot.value)).(lastSeq := s.lastSeq[y := snapshot.value.seqNo],
        lastPrice := s.lastPrice[y := snapshot.value.bid])
  }

  function WriterTook(s: Stream): Stream {
    if s.out.queue == [] || |s.hist| < |s.out.queue| then s
    else s.(out := s.out.(queue := s.out.queue[1..]), taken := s.taken + [|s.hist| - |s.out.queue|])
  }

  /** A snapshot read for `y` carries that symbol. */
  predicate SnapshotFor(snapshot: Option<SnapshotData>, y: Symbol) {
    snapshot.Some? ==> snapshot.value.symbol == y
  }

  function Step1(s: Stream, step: Step): Stream {
    match step
    case Deliver(e) => Delivered(s, e)
    case FlushWindow => WindowFlushed(s)
    case Join(y, filter) =>
      if s.joining.NotJoining? then s.(joining := Buffering(Initialization(y, filter, [], false))) else s
    case ReadSnapshot(snapshot) =>
      if s.joining.Buffering? && SnapshotFor(snapshot, s.joining.init.symbol) then
        s.(joining := SnapshotRead(s.joining.init, snapshot)) else s
    case JoinFails(reason) => JoinFailed(s, reason)
    case Activate => Activated(s)
    case Leave(y) => Left(s, y)
    case DispatchNext => Dispatched(s)
    case FetchAnswers(snapshot) =>
      if s.dispatch.Fetching? && SnapshotFor(snapshot, s.dispatch.event.symbol) then
        s.(dispatch := Fetched(s.dispatch.event, snapshot)) else s
    case FetchFails => if s.dispatch.Fetching? then s.(dispatch := Dead) else s
    case Recover => Recovered(s)
    case Notify(text) => Offered(s, Notice(text))
    case WriterTakes => WriterTook(s)
  }

  function Run(s: Stream, steps: seq<Step>): Stream {
    if steps == [] then s else Step1(Run(s, steps[..|steps| - 1]), steps[|steps| - 1])
  }
}
