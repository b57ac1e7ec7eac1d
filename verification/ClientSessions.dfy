/** One connected client as the gateway's objects: the session with its per-symbol tables, its outbound queue
    and its aggregation buffer, and the methods that the dispatch loop, the writer loop and the subscribe
    call run between two suspension points. Each method is one step of the stream protocol. */
module ClientSessions {
  import opened Events
  import opened Sequencing
  import opened Aggregation
  import opened Session
  import opened Streams
  import opened DropOldest

  const MAX_SAMPLES := 1000

  class SubscriptionInitialization {
    var events: seq<MarketEvent>
    var overflowed: bool

    constructor ()
      ensures events == [] && !overflowed
    {
      events, overflowed := [], false;
    }

    method Note(e: MarketEvent)
      modifies this
      ensures old(|events|) < INITIALIZATION_BUFFER_MAX_SIZE ==>
        events == old(events) + [e] && overflowed == old(overflowed)
      ensures old(|events|) >= INITIALIZATION_BUFFER_MAX_SIZE ==> events == old(events) && overflowed
    {
      if |events| >= INITIALIZATION_BUFFER_MAX_SIZE {
        overflowed := true;
      } else {
        events := events + [e];
      }
    }
  }

  /** Where the subscribe call of a session is, with its local variables. */
  datatype Task =
    | NoTask
    | AwaitingSnapshot(symbol: Symbol, filter: Option<Filter>, initialization: SubscriptionInitialization)
    | SnapshotArrived(symbol: Symbol, filter: Option<Filter>, initialization: SubscriptionInitialization,
      snapshot: Option<SnapshotData>)

  // ---- the end of the hand-off, in the order of the code ----

  function NewEpoch(s: Stream, y: Symbol, filter: Option<Filter>): Stream {
    s.(epochs := s.epochs[y := Epoch(s.epochCount, filter)], epochCount := s.epochCount + 1)
  }

  function TakenOn(s: Stream, y: Symbol, filter: Option<Filter>, events: seq<MarketEvent>,
                   snapshot: Option<SnapshotData>): Stream
  {
    var released := Newer(SortBySeq(events), snapshot);
    s.(joining := NotJoining, subscriptions := s.subscriptions + {y}, aggregator := PushAll(s.aggregator, released),
       filters := if filter.Some? then s.filters[y := filter.value] else s.filters - {y},
       overflowed := s.overflowed || (s.aggregator.mode.Raw? && Overflows(s.aggregator, |released|)))
  }

  function SnapshotSent(s: Stream, y: Symbol, snapshot: Option<SnapshotData>): Stream {
    if snapshot.None? then s
    else
      var t := Offered(s, Snapshot(snapshot.value));
      t.(lastSeq := t.lastSeq[y := snapshot.value.seqNo], lastPrice := t.lastPrice[y := snapshot.value.bid])
  }

  /** Sending the snapshot before or after the registration makes no difference. */
  lemma JoinedInParts(s: Stream)
    requires s.joining.SnapshotRead?
    ensures var init, snapshot := s.joining.init, s.joining.snapshot;
      Joined(s, init, snapshot) ==
      TakenOn(SnapshotSent(NewEpoch(s, init.symbol, init.filter), init.symbol, snapshot), init.symbol, init.filter,
        init.events, snapshot)
  {
    hide PushAll, Newer, SortBySeq, Enqueued, Accepts, Overflows;
    var init, snapshot := s.joining.init, s.joining.snapshot;
    var y, begun := init.symbol, NewEpoch(s, init.symbol, init.filter);
    assert Registered(s, init, snapshot) == TakenOn(begun, y, init.filter, init.events, snapshot);
    if snapshot.Some? {
      OfferedThenTaken(begun, Snapshot(snapshot.value), y, init.filter, init.events, snapshot);
    }
    hide Registered, Offered, NewEpoch;
  }

  lemma OfferedThenTaken(s: Stream, m: Message, y: Symbol, filter: Option<Filter>, events: seq<MarketEvent>,
                         snapshot: Option<SnapshotData>)
    ensures Offered(TakenOn(s, y, filter, events, snapshot), m) == TakenOn(Offered(s, m), y, filter, events, snapshot)
  {
    hide PushAll, Newer, SortBySeq, Enqueued, Accepts, Overflows;
  }

  lemma NothingReleased(a: Aggregator, snapshot: Option<SnapshotData>)
    ensures PushAll(a, Newer([], snapshot)) == a
  {
  }

  lemma OneMoreReleased(a: Aggregator, events: seq<MarketEvent>, e: MarketEvent, snapshot: Option<SnapshotData>)
    ensures PushAll(a, Newer(events + [e], snapshot)) ==
            if snapshot.None? || snapshot.value.seqNo < e.seqNo then Pushed(PushAll(a, Newer(events, snapshot)), e)
            else PushAll(a, Newer(events, snapshot))
  {
    var so := Newer(events, snapshot);
    assert (events + [e])[..|events|] == events && (so + [e])[..|so|] == so;
    hide Pushed;
  }

  class ClientSession {
    const policy: Policy
    const aggregator: AggregationBuffer
    var subscriptions: set<Symbol>
    var lastSeq: map<Symbol, int>
    var filters: map<Symbol, Filter>
    var lastPrice: map<Symbol, real>
    var gapsDetected: nat
    var dropped: nat
    var sent: nat
    var samples: seq<int>
    var queue: seq<Message>
    var disconnected: bool
    var task: Task
    var dispatch: Dispatch
    var writer: WriterState

    // what has happened so far
    ghost var hist: seq<Entry>
    ghost var taken: seq<nat>
    ghost var epochs: map<Symbol, Epoch>
    ghost var epochCount: nat
    ghost var overflowed: bool
    ghost var calls: nat
    ghost var failed: nat

    ghost function Footprint(): set<object>
      reads this
    {
      {this, aggregator} + if task.NoTask? then {} else {task.initialization}
    }

    function Out(): Outbound
      reads this
    {
      Outbound(policy, queue, dropped, disconnected)
    }

    function JoiningView(): Joining
      reads this, if task.NoTask? then {} else {task.initialization}
    {
      match task
      case NoTask => NotJoining
      case AwaitingSnapshot(y, filter, init) => Buffering(Initialization(y, filter, init.events, init.overflowed))
      case SnapshotArrived(y, filter, init, snapshot) =>
        SnapshotRead(Initialization(y, filter, init.events, init.overflowed), snapshot)
    }

    /** The session as the protocol sees it. */
    ghost function View(): Stream
      reads this, Footprint()
    {
      Stream(aggregator.View(), Out(), lastSeq, lastPrice, filters, subscriptions, JoiningView(), dispatch,
             hist, taken, epochs, epochCount, overflowed)
    }

    /** The session as the writer loop sees it. */
    ghost function WireView(): Wire
      reads this
    {
      Wire(Out(), writer, calls, sent, failed)
    }

    ghost predicate Valid()
      reads this
    {
      |queue| <= |hist|
    }

    constructor (policy: Policy, mode: Mode)
      ensures Valid() && View() == Connected(mode, policy) && WireView() == WireRun(policy, [])
      ensures fresh(aggregator) && task.NoTask? && dispatch.Idle? && subscriptions == {}
    {
      this.policy := policy;
      aggregator := new AggregationBuffer(mode);
      subscriptions, lastSeq, filters, lastPrice := {}, map[], map[], map[];
      gapsDetected, dropped, sent, samples := 0, 0, 0, [];
      queue, disconnected, task, dispatch, writer := [], false, NoTask, Idle, Checking;
      hist, taken, epochs, epochCount, overflowed, calls, failed := [], [], map[], 0, false, 0, 0;
    }

    method ClassifySequence(y: Symbol, seqNo: int, detectGap: bool) returns (decision: Decision)
      modifies this`lastSeq, this`gapsDetected
      ensures decision == Classify(Lookup(old(lastSeq), y), seqNo, detectGap)
      ensures lastSeq == if decision == Next then old(lastSeq)[y := seqNo] else old(lastSeq)
      ensures gapsDetected == old(gapsDetected) + if decision == Gap then 1 else 0
    {
      if y !in lastSeq {
        lastSeq := lastSeq[y := seqNo];
        return Next;
      }
      var last := lastSeq[y];
      if seqNo <= last {
        return Stale;
      }
      if detectGap && seqNo != last + 1 {
        gapsDetected := gapsDetected + 1;
        return Gap;
      }
      lastSeq := lastSeq[y := seqNo];
      return Next;
    }

    method PassesFilter(e: MarketEvent) returns (passes: bool)
      ensures passes == ShouldDeliver(Lookup(filters, e.symbol), Lookup(lastPrice, e.symbol), e)
    {
      if e.symbol !in filters {
        return true;
      }
      var filter := filters[e.symbol];
      if filter.maxSpread.Some? {
        var spread := e.ask - e.bid;
        if spread > filter.maxSpread.value {
          return false;
        }
      }
      if filter.minChangePct.Some? {
        if e.symbol !in lastPrice || lastPrice[e.symbol] == 0.0 {
          return true;
        }
        var change := (e.bid - lastPrice[e.symbol]) / lastPrice[e.symbol];
        var changePct := (if change < 0.0 then -change else change) * 100.0;
        if changePct + PERCENT_EPSILON < filter.minChangePct.value {
          return false;
        }
      }
      return true;
    }

    method MarkDelivered(e: MarketEvent)
      modifies this`lastPrice
      ensures lastPrice == old(lastPrice)[e.symbol := e.bid]
    {
      lastPrice := lastPrice[e.symbol := e.bid];
    }

    /** Non-blocking; a full queue drops its oldest message or the new one, as the policy says. */
    method PutOrDrop(m: Message) returns (accepted: bool)
      modifies this`queue, this`dropped, this`disconnected, this`calls
      ensures accepted == Accepts(old(Out())) && Out() == Enqueued(old(Out()), m)
      ensures |queue| <= old(|queue|) + if accepted then 1 else 0
      ensures WireView() == WireStep1(old(WireView()), Enqueue(m))
    {
      calls := calls + 1;
      if |queue| < QUEUE_MAX_SIZE {
        queue := queue + [m];
        return true;
      }
      dropped := dropped + 1;
      if policy == DropOldestPolicy {
        queue := queue[1..];
        queue := queue + [m];
        return true;
      }
      if dropped >= SLOW_CLIENT_DROP_LIMIT {
        disconnected := true;
      }
      return false;
    }

    method EnqueueMessage(m: Message) returns (accepted: bool)
      requires Valid()
      modifies this`queue, this`dropped, this`disconnected, this`hist, this`calls
      ensures Valid() && accepted == Accepts(old(Out()))
      ensures View() == Offered(old(View()), m)
      ensures WireView() == WireStep1(old(WireView()), Enqueue(m))
    {
      hide Enqueued, Accepts, WireStep1;
      accepted := PutOrDrop(m);
      if accepted {
        hist := hist + [Entry(m, if m.IsData() then Lookup(epochs, m.SymbolOf()) else None)];
      }
    }

    /** A snapshot the queue lets in becomes the new baseline. */
    method SendSnapshot(y: Symbol, d: SnapshotData) returns (accepted: bool)
      requires Valid()
      modifies this`lastSeq, this`lastPrice, this`queue, this`dropped, this`disconnected, this`hist, this`calls
      ensures Valid() && accepted == Accepts(old(Out()))
      ensures View() == (var t := Offered(old(View()), Snapshot(d));
                         if accepted then t.(lastSeq := t.lastSeq[y := d.seqNo], lastPrice := t.lastPrice[y := d.bid])
                         else t)
    {
      hide Offered, Enqueued, WireStep1, Accepts;
      accepted := EnqueueMessage(Snapshot(d));
      if accepted {
        lastSeq := lastSeq[y := d.seqNo];
        lastPrice := lastPrice[y := d.bid];
      }
    }

    // ---- the dispatch loop ----

    /** Normal incremental delivery. */
    method DeliverNext(e: MarketEvent)
      requires Valid()
      modifies this`lastPrice, this`queue, this`dropped, this`disconnected, this`hist, this`calls
      ensures Valid() && View() == Advanced(old(View()), e)
    {
      hide Offered, Enqueued, WireStep1, Accepts, ShouldDeliver;
      var passes := PassesFilter(e);
      if !passes {
        return;
      }
      var accepted := EnqueueMessage(Incremental(e));
      if accepted {
        MarkDelivered(e);
      }
    }

    /** Takes the next event, if there is one, and classifies it. */
    method ClassifyNext() returns (next: Option<MarketEvent>, decision: Decision)
      requires Valid()
      modifies this`lastSeq, this`gapsDetected, aggregator`output
      ensures Valid() && (next.None? <==> old(aggregator.output) == [])
      ensures next.None? ==> View() == old(View())
      ensures next.Some? ==>
                && next.value == old(aggregator.output)[0]
                && decision == Classify(Lookup(old(lastSeq), next.value.symbol), next.value.seqNo, aggregator.mode.Raw?)
                && View() == (var s := old(View());
                              s.(aggregator := s.aggregator.(output := s.aggregator.output[1..]),
                                 lastSeq := if decision == Decision.Next then
                                   s.lastSeq[next.value.symbol := next.value.seqNo] else s.lastSeq))
    {
      hide Classify;
      decision := Stale;
      next := aggregator.Get();
      if next.Some? {
        decision := ClassifySequence(next.value.symbol, next.value.seqNo, aggregator.mode == Raw);
      }
    }

    /** From taking an event to the next suspension: the next event, or the snapshot fetch of a gap. */
    method DispatchEvent()
      requires Valid() && dispatch.Idle?
      modifies this`lastSeq, this`gapsDetected, this`dispatch, this`lastPrice, this`queue, this`dropped,
        this`disconnected
      modifies this`hist, this`calls, aggregator`output
      ensures Valid() && View() == Dispatched(old(View()))
    {
      hide Advanced, Classify;
      var next, decision := ClassifyNext();
      if next.None? {
        return;
      }
      match decision
      case Stale =>
      case Gap => dispatch := Fetching(next.value);
      case Next => DeliverNext(next.value);
    }

    method GapSnapshotFetched(snapshot: Option<SnapshotData>)
      requires Valid() && dispatch.Fetching? && SnapshotFor(snapshot, dispatch.event.symbol)
      modifies this`dispatch
      ensures Valid() && View() == Step1(old(View()), FetchAnswers(snapshot))
    {
      dispatch := Fetched(dispatch.event, snapshot);
    }

    method GapFetchFailed()
      requires Valid() && dispatch.Fetching?
      modifies this`dispatch
      ensures Valid() && View() == Step1(old(View()), FetchFails)
      ensures dispatch.Dead? && Footprint() == old(Footprint())
    {
      dispatch := Dead;
    }

    /** After the fetch: the baseline is looked up again, and only a newer snapshot is sent. */
    method RecoverGap()
      requires Valid() && dispatch.Fetched?
      modifies this`lastSeq, this`dispatch, this`lastPrice, this`queue, this`dropped, this`disconnected, this`hist,
        this`calls
      ensures Valid() && View() == Recovered(old(View()))
    {
      hide Offered, Enqueued, WireStep1;
      var y, snapshot := dispatch.event.symbol, dispatch.snapshot;
      var previous := Lookup(lastSeq, y);
      dispatch := Idle;
      if snapshot.Some? && (previous.None? || snapshot.value.seqNo > previous.value) {
        var accepted := SendSnapshot(y, snapshot.value);
      }
    }

    // ---- fan-out, and the subscribe call's own part ----

    /** A session initialising the event's symbol buffers it. */
    method NoteEvent(e: MarketEvent)
      requires !task.NoTask? && task.symbol == e.symbol
      modifies task.initialization
      ensures View() == old(View()).(joining := NotedIn(old(View()).joining, e))
    {
      task.initialization.Note(e);
    }

    /** A subscribed session's aggregator takes the event. */
    method PushEvent(e: MarketEvent)
      requires Valid()
      modifies this`overflowed, aggregator
      ensures Valid() && Footprint() == old(Footprint())
      ensures View() == (var s := old(View());
                         s.(aggregator := Pushed(s.aggregator, e), overflowed := s.overflowed
                           || (s.aggregator.mode.Raw? && Overflows(s.aggregator, 1))))
    {
      hide Pushed;
      if aggregator.mode == Raw && Overflows(aggregator.View(), 1) {
        overflowed := true;
      }
      aggregator.Push(e);
    }

    /** The end of an aggregation window. */
    method FlushWindow()
      requires Valid()
      modifies this`overflowed, aggregator
      ensures Valid() && View() == WindowFlushed(old(View()))
    {
      hide Flushed;
      if aggregator.mode == Agg && Overflows(aggregator.View(), |aggregator.buffer|) {
        overflowed := true;
      }
      aggregator.Flush();
    }

    method BeginSubscribe(y: Symbol, filter: Option<Filter>)
      requires Valid() && task.NoTask?
      modifies this`task
      ensures Valid() && View() == Step1(old(View()), Join(y, filter))
      ensures task.AwaitingSnapshot? && task.symbol == y && fresh(task.initialization)
    {
      var initialization := new SubscriptionInitialization();
      task := AwaitingSnapshot(y, filter, initialization);
    }

    method SnapshotReturned(snapshot: Option<SnapshotData>)
      requires Valid() && task.AwaitingSnapshot? && SnapshotFor(snapshot, task.symbol)
      modifies this`task
      ensures Valid() && View() == Step1(old(View()), ReadSnapshot(snapshot))
      ensures task == SnapshotArrived(old(task).symbol, old(task).filter, old(task).initialization, snapshot)
    {
      task := SnapshotArrived(task.symbol, task.filter, task.initialization, snapshot);
    }

    method SubscribeFailed(reason: string)
      requires Valid() && !task.NoTask?
      modifies this`task, this`queue, this`dropped, this`disconnected, this`hist, this`calls
      ensures Valid() && View() == JoinFailed(old(View()), reason) && task == NoTask
    {
      hide Offered, Enqueued, WireStep1, Accepts;
      task := NoTask;
      var accepted := EnqueueMessage(Notice(reason));
    }

    /** Releases the buffered events that the snapshot does not cover, in sequence order. */
    method ReleaseBuffered(events: seq<MarketEvent>, snapshot: Option<SnapshotData>)
      modifies aggregator
      ensures aggregator.View() == PushAll(old(aggregator.View()), Newer(SortBySeq(events), snapshot))
    {
      var sorted := SortBySeq(events);
      hide PushAll, Newer, SortBySeq, Pushed;
      ghost var was := aggregator.View();
      NothingReleased(was, snapshot);
      assert sorted[..0] == [];
      for i := 0 to |sorted|
        invariant aggregator.View() == PushAll(was, Newer(sorted[..i], snapshot))
      {
        OneMoreReleased(was, sorted[..i], sorted[i], snapshot);
        assert sorted[..i] + [sorted[i]] == sorted[..i + 1];
        if snapshot.None? || sorted[i].seqNo > snapshot.value.seqNo {
          aggregator.Push(sorted[i]);
        }
      }
      assert sorted[..|sorted|] == sorted;
    }

    /** Takes on the subscription with its filter, after the newer buffered events are released. */
    method TakeOn(y: Symbol, filter: Option<Filter>, events: seq<MarketEvent>, snapshot: Option<SnapshotData>)
      modifies this`task, this`subscriptions, this`filters, this`overflowed, aggregator
      ensures View() == TakenOn(old(View()), y, filter, events, snapshot) && task == NoTask
      ensures subscriptions == old(subscriptions) + {y}
    {
      hide PushAll, Newer, SortBySeq;
      overflowed := overflowed || (aggregator.mode.Raw?
        && Overflows(aggregator.View(), |Newer(SortBySeq(events), snapshot)|));
      ReleaseBuffered(events, snapshot);
      subscriptions := subscriptions + {y};
      if filter.None? {
        filters := filters - {y};
      } else {
        filters := filters[y := filter.value];
      }
      task := NoTask;
    }

    /** The first snapshot opens a new epoch of its symbol, unless the queue refuses it. */
    method OpenEpoch(y: Symbol, filter: Option<Filter>, snapshot: Option<SnapshotData>) returns (accepted: bool)
      requires Valid()
      modifies this`queue, this`dropped, this`disconnected, this`hist, this`calls
      modifies this`lastSeq, this`lastPrice, this`epochs, this`epochCount
      ensures Valid() && accepted == (snapshot.None? || Accepts(old(Out())))
      ensures accepted ==> View() == SnapshotSent(NewEpoch(old(View()), y, filter), y, snapshot)
      ensures !accepted ==> View() == Offered(old(View()), Snapshot(snapshot.value))
    {
      hide Offered, Enqueued, WireStep1, Accepts;
      if snapshot.None? || Accepts(Out()) {
        epochs, epochCount := epochs[y := Epoch(epochCount, filter)], epochCount + 1;
      }
      if snapshot.None? {
        return true;
      }
      accepted := SendSnapshot(y, snapshot.value);
    }

    /** The end of the hand-off, in one stretch: the snapshot goes out and becomes the baseline, newer buffered
        events are released, and the session takes on the subscription. */
    method FinishSubscribe() returns (active: bool)
      requires Valid() && task.SnapshotArrived?
      modifies this`task, this`queue, this`dropped, this`disconnected, this`hist, this`calls
      modifies this`lastSeq, this`lastPrice, this`subscriptions, this`filters, this`epochs, this`epochCount,
        this`overflowed, aggregator
      ensures Valid() && View() == Activated(old(View())) && task == NoTask
      ensures active <==> !old(task.initialization.overflowed) && (old(task).snapshot.None? || Accepts(old(Out())))
      ensures subscriptions == old(subscriptions) + if active then {old(task).symbol} else {}
      ensures Footprint() <= old(Footprint())
    {
      var y, snapshot, filter := task.symbol, task.snapshot, task.filter;
      var events := task.initialization.events;
      hide Offered, Enqueued, WireStep1, TakenOn, Joined, JoinFailed, SnapshotSent, NewEpoch;
      JoinedInParts(View());
      if task.initialization.overflowed {
        SubscribeFailed("subscription failed");
        return false;
      }
      var accepted := OpenEpoch(y, filter, snapshot);
      if !accepted {
        SubscribeFailed("subscription failed");
        return false;
      }
      TakeOn(y, filter, events, snapshot);
      return true;
    }

    /** The session's own part of unsubscribe. */
    method Forget(y: Symbol)
      requires Valid() && task.NoTask?
      modifies this`subscriptions, this`lastSeq, this`filters, this`lastPrice, this`epochs
      ensures Valid() && View() == Left(old(View()), y) && subscriptions == old(subscriptions) - {y}
    {
      subscriptions := subscriptions - {y};
      lastSeq := lastSeq - {y};
      filters := filters - {y};
      lastPrice := lastPrice - {y};
      epochs := epochs - {y};
    }

    // ---- the writer loop ----

    method CheckDisconnected()
      requires writer.Checking?
      modifies this`writer
      ensures WireView() == WireStep1(old(WireView()), Check)
      ensures View() == old(View())
    {
      if disconnected {
        writer := Finished;
      } else {
        writer := Waiting;
      }
    }

    method TakeMessage()
      requires Valid() && writer.Waiting? && queue != []
      modifies this`writer, this`queue, this`taken
      ensures Valid() && View() == WriterTook(old(View())) && WireView() == WireStep1(old(WireView()), WireStep.Take)
    {
      taken := taken + [|hist| - |queue|];
      writer := Sending(queue[0]);
      queue := queue[1..];
    }

    /** The rolling window of dispatch latencies. */
    method RecordLatency(eventTs: int, now: int)
      modifies this`samples
      ensures samples == PutLatest(old(samples), now - eventTs, MAX_SAMPLES)
    {
      samples := samples + [now - eventTs];
      if |samples| > MAX_SAMPLES {
        samples := samples[1..];
      }
    }

    /** A sent event is counted and its latency recorded; only an event carries the time it happened. */
    method SendReturned(ok: bool, now: int)
      requires writer.Sending?
      modifies this`writer, this`sent, this`failed, this`disconnected, this`samples
      ensures WireView() == WireStep1(old(WireView()), if ok then SendSucceeds else SendFails)
      ensures View() == old(View()).(out := Out())
      ensures samples == var m := old(writer).message;
                         if ok && m.Incremental? && m.event.eventTs != 0 then
                           PutLatest(old(samples), now - m.event.eventTs, MAX_SAMPLES)
                         else old(samples)
    {
      if ok {
        sent := sent + 1;
        if writer.message.Incremental? && writer.message.event.eventTs != 0 {
          RecordLatency(writer.message.event.eventTs, now);
        }
        writer := Checking;
      } else {
        failed := failed + 1;
        disconnected := true;
        writer := Finished;
      }
    }

    method CloseSession()
      modifies this`writer, this`failed, this`disconnected
      ensures WireView() == WireStep1(old(WireView()), Close)
      ensures View() == old(View()).(out := Out())
    {
      disconnected := true;
      failed := failed + Held(writer);
      writer := Finished;
    }
  }
}
