/** What one client's stream guarantees in every interleaving, whatever Pub/Sub loses, duplicates or
    reorders and whatever snapshots Redis answers with. */
module StreamGuarantees {
  import opened Events
  import opened Sequencing
  import opened Aggregation
  import opened Session
  import opened Streams
  import DropOldest

  ghost predicate InEpoch(e: Entry, y: Symbol, id: nat) {
    e.msg.IsData() && e.msg.SymbolOf() == y && e.epoch.Some? && e.epoch.value.id == id
  }

  /** The latest data message of `y` enqueued in the epoch `id`. */
  ghost function LatestIn(hist: seq<Entry>, y: Symbol, id: nat): Option<Message> {
    if hist == [] then None
    else if InEpoch(hist[|hist| - 1], y, id) then Some(hist[|hist| - 1].msg)
    else LatestIn(hist[..|hist| - 1], y, id)
  }

  /** The latest data message of `y` enqueued at all. */
  ghost function LatestEver(hist: seq<Entry>, y: Symbol): Option<Message> {
    if hist == [] then None
    else if hist[|hist| - 1].msg.IsData() && hist[|hist| - 1].msg.SymbolOf() == y then Some(hist[|hist| - 1].msg)
    else LatestEver(hist[..|hist| - 1], y)
  }

  /** How a data message relates to the one before it in its epoch. */
  ghost predicate Follows(mode: Mode, policy: Policy, filter: Option<Filter>, prev: Message, m: Message)
    requires prev.IsData() && m.IsData()
  {
    && prev.SeqOf() < m.SeqOf()
    && (mode == Raw && policy == DropOldestPolicy && filter.None? && m.Incremental? ==> m.SeqOf() == prev.SeqOf() + 1)
    && (filter.Some? && filter.value.minChangePct.Some? && m.Incremental? ==>
          !WithinDeadband(prev.BidOf(), m.BidOf(), filter.value.minChangePct.value))
  }

  ghost predicate LinkOk(mode: Mode, policy: Policy, before: seq<Entry>, e: Entry) {
    e.msg.IsData() && e.epoch.Some? ==>
      var prev := LatestIn(before, e.msg.SymbolOf(), e.epoch.value.id);
      && (prev.Some? ==> prev.value.IsData() && Follows(mode, policy, e.epoch.value.filter, prev.value, e.msg))
      && (e.epoch.value.filter.Some? && e.epoch.value.filter.value.maxSpread.Some? && e.msg.Incremental? ==>
            e.msg.event.ask - e.msg.event.bid <= e.epoch.value.filter.value.maxSpread.value)
  }

  ghost predicate HistOk(mode: Mode, policy: Policy, hist: seq<Entry>) {
    forall j | 0 <= j < |hist| :: LinkOk(mode, policy, hist[..j], hist[j])
  }

  ghost predicate IdsOk(hist: seq<Entry>, count: nat) {
    forall j | 0 <= j < |hist| :: hist[j].epoch.Some? ==> hist[j].epoch.value.id < count
  }

  /** The baselines of an open epoch are those of its latest message; a filter or a full queue under the
      disconnect policy may let the sequence baseline run ahead of it. */
  ghost predicate EpochOk(policy: Policy, hist: seq<Entry>, y: Symbol, epoch: Epoch, count: nat,
                          lastSeq: Option<int>, lastPrice: Option<real>, filter: Option<Filter>)
  {
    && epoch.id < count && epoch.filter == filter
    && var latest := LatestIn(hist, y, epoch.id);
      latest.Some? ==>
        && latest.value.IsData()
        && lastSeq.Some? && latest.value.SeqOf() <= lastSeq.value
        && (policy == DropOldestPolicy && filter.None? ==> latest.value.SeqOf() == lastSeq.value)
        && lastPrice == Some(latest.value.BidOf())
  }

  ghost predicate EpochsOk(policy: Policy, hist: seq<Entry>, epochs: map<Symbol, Epoch>, count: nat,
                           lastSeq: map<Symbol, int>, lastPrice: map<Symbol, real>, filters: map<Symbol, Filter>)
  {
    forall y {:trigger y in epochs} | y in epochs ::
      EpochOk(policy, hist, y, epochs[y], count, Lookup(lastSeq, y), Lookup(lastPrice, y), Lookup(filters, y))
  }

  ghost predicate PricesOk(hist: seq<Entry>, lastPrice: map<Symbol, real>) {
    forall y {:trigger y in lastPrice} | y in lastPrice ::
      var latest := LatestEver(hist, y);
      latest.Some? && latest.value.IsData() && latest.value.BidOf() == lastPrice[y]
  }

  /** The queue is the tail of what was enqueued, and what the writer took came before it, in order; it took
      everything before it if nothing was dropped. */
  ghost predicate QueueOk(hist: seq<Entry>, queue: seq<Message>, taken: seq<nat>, dropped: nat) {
    && |queue| <= |hist| && |queue| <= QUEUE_MAX_SIZE
    && (forall i | 0 <= i < |queue| :: queue[i] == hist[|hist| - |queue| + i].msg)
    && DropOldest.Increasing(taken, |hist| - |queue|)
    && (dropped == 0 ==> |taken| == |hist| - |queue|)
  }

  ghost predicate SuspendedOk(joining: Joining, dispatch: Dispatch) {
    && (joining.SnapshotRead? ==> SnapshotFor(joining.snapshot, joining.init.symbol))
    && (dispatch.Fetched? ==> SnapshotFor(dispatch.snapshot, dispatch.event.symbol))
  }

  ghost predicate Inv(s: Stream) {
    && HistOk(s.aggregator.mode, s.out.policy, s.hist)
    && IdsOk(s.hist, s.epochCount)
    && EpochsOk(s.out.policy, s.hist, s.epochs, s.epochCount, s.lastSeq, s.lastPrice, s.filters)
    && PricesOk(s.hist, s.lastPrice)
    && QueueOk(s.hist, s.out.queue, s.taken, s.out.dropped)
    && SuspendedOk(s.joining, s.dispatch)
  }

  // ---- appending to the history ----

  lemma LatestOfAppend(hist: seq<Entry>, e: Entry, y: Symbol, id: nat)
    ensures LatestIn(hist + [e], y, id) == if InEpoch(e, y, id) then Some(e.msg) else LatestIn(hist, y, id)
    ensures LatestEver(hist + [e], y) == if e.msg.IsData() && e.msg.SymbolOf() == y then Some(e.msg)
      else LatestEver(hist, y)
  {
    assert (hist + [e])[..|hist|] == hist;
  }

  lemma {:induction false} NothingInFuture(hist: seq<Entry>, y: Symbol, id: nat)
    requires IdsOk(hist, id)
    ensures LatestIn(hist, y, id) == None
  {
    if hist != [] {
      var front := hist[..|hist| - 1];
      assert IdsOk(front, id) by {
        forall j | 0 <= j < |front| ensures front[j].epoch.Some? ==> front[j].epoch.value.id < id {
          assert front[j] == hist[j];
        }
      }
      NothingInFuture(front, y, id);
    }
  }

  lemma HistGrows(mode: Mode, policy: Policy, hist: seq<Entry>, e: Entry, count: nat)
    requires HistOk(mode, policy, hist) && LinkOk(mode, policy, hist, e)
    requires IdsOk(hist, count) && (e.epoch.Some? ==> e.epoch.value.id < count)
    ensures HistOk(mode, policy, hist + [e]) && IdsOk(hist + [e], count)
  {
    hide LinkOk;
    var grown := hist + [e];
    forall j | 0 <= j < |grown| ensures LinkOk(mode, policy, grown[..j], grown[j]) {
      if j < |hist| {
        assert grown[..j] == hist[..j];
      } else {
        assert grown[..j] == hist;
      }
    }
  }

  lemma QueueGrows(hist: seq<Entry>, out: Outbound, taken: seq<nat>, e: Entry)
    requires QueueOk(hist, out.queue, taken, out.dropped)
    ensures Accepts(out) ==> QueueOk(hist + [e], Enqueued(out, e.msg).queue, taken, Enqueued(out, e.msg).dropped)
    ensures !Accepts(out) ==> QueueOk(hist, Enqueued(out, e.msg).queue, taken, Enqueued(out, e.msg).dropped)
  {
  }

  /** What an enqueued data message of `y` does to the open epochs, given the new baselines of `y`. */
  lemma EpochsFollow(policy: Policy, hist: seq<Entry>, epochs: map<Symbol, Epoch>, count: nat,
                     lastSeq: map<Symbol, int>, lastPrice: map<Symbol, real>, filters: map<Symbol, Filter>, e: Entry,
                       seqNo: int)
    requires EpochsOk(policy, hist, epochs, count, lastSeq, lastPrice, filters)
    requires e.msg.IsData() && e.epoch == Lookup(epochs, e.msg.SymbolOf()) && seqNo == e.msg.SeqOf()
    ensures EpochsOk(policy, hist + [e], epochs, count,
                     lastSeq[e.msg.SymbolOf() := seqNo], lastPrice[e.msg.SymbolOf() := e.msg.BidOf()], filters)
  {
    var lastSeq', lastPrice' := lastSeq[e.msg.SymbolOf() := seqNo], lastPrice[e.msg.SymbolOf() := e.msg.BidOf()];
    forall y | y in epochs
      ensures EpochOk(policy, hist + [e], y, epochs[y], count, Lookup(lastSeq', y), Lookup(lastPrice', y),
        Lookup(filters, y))
    {
      LatestOfAppend(hist, e, y, epochs[y].id);
    }
  }

  lemma PricesFollow(hist: seq<Entry>, lastPrice: map<Symbol, real>, e: Entry)
    requires PricesOk(hist, lastPrice) && e.msg.IsData()
    ensures PricesOk(hist + [e], lastPrice[e.msg.SymbolOf() := e.msg.BidOf()])
  {
    forall y | y in lastPrice[e.msg.SymbolOf() := e.msg.BidOf()]
      ensures var latest := LatestEver(hist + [e], y);
        latest.Some? && latest.value.IsData() && latest.value.BidOf() == lastPrice[e.msg.SymbolOf() := e.msg.BidOf()][y]
    {
      LatestOfAppend(hist, e, y, 0);
    }
  }

  lemma NoticeIsNoData(s: Stream, e: Entry)
    requires !e.msg.IsData()
    requires EpochsOk(s.out.policy, s.hist, s.epochs, s.epochCount, s.lastSeq, s.lastPrice, s.filters)
      && PricesOk(s.hist, s.lastPrice)
    ensures EpochsOk(s.out.policy, s.hist + [e], s.epochs, s.epochCount, s.lastSeq, s.lastPrice, s.filters)
    ensures PricesOk(s.hist + [e], s.lastPrice)
  {
    forall y | y in s.epochs
      ensures EpochOk(s.out.policy, s.hist + [e], y, s.epochs[y], s.epochCount, Lookup(s.lastSeq, y),
        Lookup(s.lastPrice, y), Lookup(s.filters, y))
    {
      LatestOfAppend(s.hist, e, y, s.epochs[y].id);
    }
    forall y | y in s.lastPrice ensures LatestEver(s.hist + [e], y) == LatestEver(s.hist, y) {
      LatestOfAppend(s.hist, e, y, 0);
    }
  }

  lemma NoticeFollows(s: Stream, text: string)
    requires Inv(s)
    ensures Inv(Offered(s, Notice(text)))
  {
    hide HistOk, IdsOk, EpochsOk, PricesOk, QueueOk, Enqueued;
    var e := Entry(Notice(text), None);
    QueueGrows(s.hist, s.out, s.taken, e);
    if Accepts(s.out) {
      HistGrows(s.aggregator.mode, s.out.policy, s.hist, e, s.epochCount);
      NoticeIsNoData(s, e);
    }
  }

  /** An enqueued data message that links to its epoch keeps everything, with its baselines set. */
  lemma DataFollows(s: Stream, m: Message)
    requires Inv(s) && Accepts(s.out) && m.IsData()
    requires LinkOk(s.aggregator.mode, s.out.policy, s.hist, Entry(m, Lookup(s.epochs, m.SymbolOf())))
    ensures Inv(Offered(s, m).(lastSeq := s.lastSeq[m.SymbolOf() := m.SeqOf()],
      lastPrice := s.lastPrice[m.SymbolOf() := m.BidOf()]))
  {
    var y := m.SymbolOf();
    var e := Entry(m, Lookup(s.epochs, y));
    assert y in s.epochs ==> s.epochs[y].id < s.epochCount;
    hide LinkOk, HistOk, IdsOk, EpochsOk, PricesOk, QueueOk, EpochOk;
    QueueGrows(s.hist, s.out, s.taken, e);
    HistGrows(s.aggregator.mode, s.out.policy, s.hist, e, s.epochCount);
    EpochsFollow(s.out.policy, s.hist, s.epochs, s.epochCount, s.lastSeq, s.lastPrice, s.filters, e, m.SeqOf());
    PricesFollow(s.hist, s.lastPrice, e);
  }

  lemma RefusedChangesNothing(s: Stream, m: Message)
    requires Inv(s) && !Accepts(s.out)
    ensures Inv(Offered(s, m))
  {
    hide HistOk, IdsOk, EpochsOk, PricesOk;
  }

  // ---- the steps keep the invariant ----

  /** A next event: it follows the latest message of its epoch, and the filter saw that message's price. */
  lemma NextLinks(s: Stream, e: MarketEvent)
    requires Inv(s) && Classify(Lookup(s.lastSeq, e.symbol), e.seqNo, s.aggregator.mode.Raw?) == Next
    requires ShouldDeliver(Lookup(s.filters, e.symbol), Lookup(s.lastPrice, e.symbol), e)
    ensures LinkOk(s.aggregator.mode, s.out.policy, s.hist, Entry(Incremental(e), Lookup(s.epochs, e.symbol)))
  {
    hide HistOk, IdsOk, PricesOk, QueueOk, LatestIn;
    if e.symbol in s.epochs {
      assert EpochOk(s.out.policy, s.hist, e.symbol, s.epochs[e.symbol], s.epochCount,
                     Lookup(s.lastSeq, e.symbol), Lookup(s.lastPrice, e.symbol), Lookup(s.filters, e.symbol));
    }
  }

  /** The baseline runs ahead of the latest message only when a filter or a full queue holds an event back. */
  lemma BaselineRunsAhead(s: Stream, y: Symbol, seqNo: int)
    requires Inv(s) && (y in s.lastSeq ==> s.lastSeq[y] < seqNo)
    requires y in s.epochs && s.out.policy == DropOldestPolicy ==> y in s.filters
    ensures Inv(s.(lastSeq := s.lastSeq[y := seqNo]))
  {
    hide HistOk, IdsOk, PricesOk, QueueOk, LatestIn;
    forall z | z in s.epochs
      ensures EpochOk(s.out.policy, s.hist, z, s.epochs[z], s.epochCount,
                      Lookup(s.lastSeq[y := seqNo], z), Lookup(s.lastPrice, z), Lookup(s.filters, z))
    {
      assert EpochOk(s.out.policy, s.hist, z, s.epochs[z], s.epochCount, Lookup(s.lastSeq, z), Lookup(s.lastPrice, z),
        Lookup(s.filters, z));
    }
  }

  lemma NextKeeps(s: Stream, e: MarketEvent)
    requires Inv(s) && Classify(Lookup(s.lastSeq, e.symbol), e.seqNo, s.aggregator.mode.Raw?) == Next
    ensures Inv(Advanced(s.(lastSeq := s.lastSeq[e.symbol := e.seqNo]), e))
  {
    hide Inv;
    var t := s.(lastSeq := s.lastSeq[e.symbol := e.seqNo]);
    if !ShouldDeliver(Lookup(s.filters, e.symbol), Lookup(s.lastPrice, e.symbol), e) {
      BaselineRunsAhead(s, e.symbol, e.seqNo);
    } else if !Accepts(s.out) {
      BaselineRunsAhead(s, e.symbol, e.seqNo);
      RefusedChangesNothing(t, Incremental(e));
    } else {
      NextLinks(s, e);
      DataFollows(s, Incremental(e));
      assert Advanced(t, e) ==
        Offered(s, Incremental(e)).(lastSeq := s.lastSeq[e.symbol := e.seqNo],
          lastPrice := s.lastPrice[e.symbol := e.bid]);
    }
  }

  lemma DispatchKeeps(s: Stream)
    requires Inv(s)
    ensures Inv(Dispatched(s))
  {
    if s.dispatch.Idle? && s.aggregator.output != [] {
      var e := s.aggregator.output[0];
      var rest := s.(aggregator := s.aggregator.(output := s.aggregator.output[1..]));
      assert Inv(rest) by { hide HistOk, IdsOk, EpochsOk, PricesOk, QueueOk; }
      hide HistOk, IdsOk, EpochsOk, PricesOk, QueueOk, Advanced;
      if Classify(Lookup(s.lastSeq, e.symbol), e.seqNo, s.aggregator.mode.Raw?) == Next {
        NextKeeps(rest, e);
      }
    }
  }

  /** A recovery snapshot is newer than the baseline as it stands after the fetch. */
  lemma RecoverKeeps(s: Stream)
    requires Inv(s)
    ensures Inv(Recovered(s))
  {
    if s.dispatch.Fetched? && s.dispatch.snapshot.Some? {
      var d := s.dispatch.snapshot.value;
      var idle := s.(dispatch := Idle);
      assert Inv(idle) by { hide HistOk, IdsOk, EpochsOk, PricesOk, QueueOk; }
      if !(d.symbol in s.lastSeq && d.seqNo <= s.lastSeq[d.symbol]) {
        if Accepts(s.out) {
          assert LinkOk(s.aggregator.mode, s.out.policy, s.hist, Entry(Snapshot(d), Lookup(s.epochs, d.symbol))) by {
            hide HistOk, IdsOk, PricesOk, QueueOk, LatestIn;
            if d.symbol in s.epochs {
              assert EpochOk(s.out.policy, s.hist, d.symbol, s.epochs[d.symbol], s.epochCount,
                             Lookup(s.lastSeq, d.symbol), Lookup(s.lastPrice, d.symbol), Lookup(s.filters, d.symbol));
            }
          }
          DataFollows(idle, Snapshot(d));
        } else {
          RefusedChangesNothing(idle, Snapshot(d));
        }
      }
    }
    hide HistOk, IdsOk, EpochsOk, PricesOk, QueueOk, Offered;
  }

  /** A new epoch begins empty. */
  lemma BeginEpochKeeps(s: Stream, y: Symbol, filter: Option<Filter>)
    requires IdsOk(s.hist, s.epochCount)
    requires EpochsOk(s.out.policy, s.hist, s.epochs, s.epochCount, s.lastSeq, s.lastPrice, s.filters)
    ensures var filters := if filter.Some? then s.filters[y := filter.value] else s.filters - {y};
      EpochsOk(s.out.policy, s.hist, s.epochs[y := Epoch(s.epochCount, filter)], s.epochCount + 1, s.lastSeq,
        s.lastPrice, filters)
    ensures IdsOk(s.hist, s.epochCount + 1)
    ensures LatestIn(s.hist, y, s.epochCount) == None
  {
    NothingInFuture(s.hist, y, s.epochCount);
    hide LatestIn;
    var filters := if filter.Some? then s.filters[y := filter.value] else s.filters - {y};
    var epochs := s.epochs[y := Epoch(s.epochCount, filter)];
    forall z | z in epochs
      ensures EpochOk(s.out.policy, s.hist, z, epochs[z], s.epochCount + 1, Lookup(s.lastSeq, z),
        Lookup(s.lastPrice, z), Lookup(filters, z))
    {
      if z != y {
        assert z in s.epochs;
      }
    }
  }

  lemma RegisteredKeeps(s: Stream)
    requires Inv(s) && s.joining.SnapshotRead?
    ensures var t := Registered(s, s.joining.init, s.joining.snapshot);
      Inv(t) && LatestIn(t.hist, s.joining.init.symbol, s.epochCount) == None
  {
    hide HistOk, IdsOk, EpochsOk, PricesOk, QueueOk, LatestIn, PushAll, SortBySeq, Newer;
    BeginEpochKeeps(s, s.joining.init.symbol, s.joining.init.filter);
  }

  lemma JoinedKeeps(s: Stream)
    requires Inv(s) && s.joining.SnapshotRead? && (s.joining.snapshot.Some? ==> Accepts(s.out))
    ensures Inv(Joined(s, s.joining.init, s.joining.snapshot))
  {
    var snapshot := s.joining.snapshot;
    RegisteredKeeps(s);
    assert SuspendedOk(s.joining, s.dispatch);
    hide Inv, LatestIn;
    if snapshot.Some? {
      DataFollows(Registered(s, s.joining.init, snapshot), Snapshot(snapshot.value));
    }
  }

  lemma ActivateKeeps(s: Stream)
    requires Inv(s)
    ensures Inv(Activated(s)) && Inv(JoinFailed(s, "subscription failed"))
  {
    assert Inv(s.(joining := NotJoining)) by { hide HistOk, IdsOk, EpochsOk, PricesOk, QueueOk; }
    if s.joining.SnapshotRead? && s.joining.snapshot.Some? && !Accepts(s.out) {
      RefusedChangesNothing(s, Snapshot(s.joining.snapshot.value));
      JoinFailureKeeps(Offered(s, Snapshot(s.joining.snapshot.value)), "subscription failed");
    }
    JoinFailureKeeps(s, "subscription failed");
    if s.joining.SnapshotRead? && (s.joining.snapshot.Some? ==> Accepts(s.out)) {
      JoinedKeeps(s);
    }
    hide Inv, Joined, Offered, JoinFailed;
  }

  lemma JoinFailureKeeps(s: Stream, reason: string)
    requires Inv(s)
    ensures Inv(JoinFailed(s, reason))
  {
    assert Inv(s.(joining := NotJoining)) by { hide HistOk, IdsOk, EpochsOk, PricesOk, QueueOk; }
    hide HistOk, IdsOk, EpochsOk, PricesOk, QueueOk, Offered, SuspendedOk;
    if !s.joining.NotJoining? {
      NoticeFollows(s.(joining := NotJoining), reason);
    }
  }

  lemma LeaveKeeps(s: Stream, y: Symbol)
    requires Inv(s)
    ensures Inv(Left(s, y))
  {
    hide HistOk, IdsOk, QueueOk, LatestIn, LatestEver;
    var t := Left(s, y);
    if t != s {
      forall z | z in t.epochs
        ensures EpochOk(t.out.policy, t.hist, z, t.epochs[z], t.epochCount, Lookup(t.lastSeq, z),
          Lookup(t.lastPrice, z), Lookup(t.filters, z))
      {
        assert z in s.epochs;
      }
      forall z | z in t.lastPrice ensures z in s.lastPrice {
      }
    }
  }

  lemma DeliverKeeps(s: Stream, e: MarketEvent)
    requires Inv(s)
    ensures Inv(Delivered(s, e)) && Inv(WindowFlushed(s))
  {
    hide HistOk, IdsOk, EpochsOk, PricesOk, QueueOk;
  }

  lemma WriterKeeps(s: Stream)
    requires Inv(s)
    ensures Inv(WriterTook(s))
  {
    hide HistOk, IdsOk, EpochsOk, PricesOk;
  }

  lemma StepKeeps(s: Stream, step: Step)
    requires Inv(s)
    ensures Inv(Step1(s, step))
  {
    hide HistOk, IdsOk, EpochsOk, PricesOk, QueueOk;
    match step
    case Deliver(e) => DeliverKeeps(s, e);
    case FlushWindow => DeliverKeeps(s, MarketEvent(Symbol(""), 0.0, 0.0, 0, 0, 0, 0, 0, Quote));
    case Join(y, filter) =>
    case ReadSnapshot(snapshot) =>
    case JoinFails(reason) => JoinFailureKeeps(s, reason);
    case Activate => ActivateKeeps(s);
    case Leave(y) => LeaveKeeps(s, y);
    case DispatchNext => DispatchKeeps(s);
    case FetchAnswers(snapshot) =>
    case FetchFails =>
    case Recover => RecoverKeeps(s);
    case Notify(text) => NoticeFollows(s, text);
    case WriterTakes => WriterKeeps(s);
  }

  lemma {:induction false} RunKeeps(mode: Mode, policy: Policy, steps: seq<Step>)
    ensures Inv(Streams.Run(Connected(mode, policy), steps))
  {
    if steps != [] {
      RunKeeps(mode, policy, steps[..|steps| - 1]);
      StepKeeps(Streams.Run(Connected(mode, policy), steps[..|steps| - 1]), steps[|steps| - 1]);
    }
  }

  // ---- the guarantees ----

  /** A state some run of a new connection ends in. */
  ghost predicate Reachable(mode: Mode, policy: Policy, s: Stream) {
    exists steps :: s == Streams.Run(Connected(mode, policy), steps)
  }

  /** A connection's mode and policy are set once. */
  ghost predicate Keeps(s: Stream, t: Stream) {
    t.aggregator.mode == s.aggregator.mode && t.out.policy == s.out.policy
  }

  lemma JoinKeepsMode(s: Stream)
    ensures Keeps(s, Activated(s))
  {
    hide Offered, Enqueued, PushAll, Accepts, SortBySeq, Newer;
  }

  lemma DispatchKeepsMode(s: Stream)
    ensures Keeps(s, Dispatched(s)) && Keeps(s, Recovered(s))
  {
    hide Offered, Enqueued, ShouldDeliver, Classify, Accepts;
  }

  lemma StepKeepsMode(s: Stream, step: Step)
    ensures Keeps(s, Step1(s, step))
  {
    JoinKeepsMode(s);
    DispatchKeepsMode(s);
    hide Offered, Activated, Dispatched, Recovered, Pushed;
  }

  lemma {:induction false} ModeIsFixed(mode: Mode, policy: Policy, steps: seq<Step>)
    ensures var s := Streams.Run(Connected(mode, policy), steps); s.aggregator.mode == mode && s.out.policy == policy
  {
    if steps != [] {
      hide Step1;
      ModeIsFixed(mode, policy, steps[..|steps| - 1]);
      StepKeepsMode(Streams.Run(Connected(mode, policy), steps[..|steps| - 1]), steps[|steps| - 1]);
    }
  }

  lemma ReachableKeeps(mode: Mode, policy: Policy, s: Stream)
    requires Reachable(mode, policy, s)
    ensures Inv(s) && s.aggregator.mode == mode && s.out.policy == policy
  {
    hide Inv;
    var steps :| s == Streams.Run(Connected(mode, policy), steps);
    RunKeeps(mode, policy, steps);
    ModeIsFixed(mode, policy, steps);
  }

  /** Two entries of one symbol and epoch, the first enqueued before the second. */
  ghost predicate SameEpoch(hist: seq<Entry>, i: nat, j: nat, y: Symbol, id: nat) {
    i < j < |hist| && InEpoch(hist[i], y, id) && InEpoch(hist[j], y, id)
  }

  lemma {:induction false} LatestIsHighest(mode: Mode, policy: Policy, hist: seq<Entry>, i: nat, y: Symbol, id: nat)
    requires HistOk(mode, policy, hist) && i < |hist| && InEpoch(hist[i], y, id)
    ensures var latest := LatestIn(hist, y, id);
      latest.Some? && latest.value.IsData() && hist[i].msg.SeqOf() <= latest.value.SeqOf()
  {
    var front, e := hist[..|hist| - 1], hist[|hist| - 1];
    if i < |front| {
      assert HistOk(mode, policy, front) by {
        forall j | 0 <= j < |front| ensures LinkOk(mode, policy, front[..j], front[j]) {
          assert front[..j] == hist[..j];
        }
      }
      LatestIsHighest(mode, policy, front, i, y, id);
      assert LinkOk(mode, policy, hist[..|hist| - 1], e);
    }
  }

  lemma EnqueuedInOrder(mode: Mode, policy: Policy, hist: seq<Entry>, i: nat, j: nat, y: Symbol, id: nat)
    requires HistOk(mode, policy, hist) && SameEpoch(hist, i, j, y, id)
    ensures hist[i].msg.SeqOf() < hist[j].msg.SeqOf()
  {
    var before := hist[..j];
    assert HistOk(mode, policy, before) by {
      forall k | 0 <= k < |before| ensures LinkOk(mode, policy, before[..k], before[k]) {
        assert before[..k] == hist[..k];
      }
    }
    LatestIsHighest(mode, policy, before, i, y, id);
    assert LinkOk(mode, policy, hist[..j], hist[j]);
  }

  /** Strict order to the socket: in every interleaving, in either mode and under either policy, what the
      writer takes for one symbol within an epoch has strictly increasing sequence numbers, recovery
      snapshots included, however the bounded queue dropped on the way. */
  lemma StrictOrderToSocket(mode: Mode, policy: Policy, s: Stream, a: nat, b: nat, y: Symbol, id: nat)
    requires Reachable(mode, policy, s) && a < b < |s.taken|
    requires s.taken[a] < |s.hist| && s.taken[b] < |s.hist|
    requires InEpoch(s.hist[s.taken[a]], y, id) && InEpoch(s.hist[s.taken[b]], y, id)
    ensures s.hist[s.taken[a]].msg.SeqOf() < s.hist[s.taken[b]].msg.SeqOf()
  {
    ReachableKeeps(mode, policy, s);
    hide IdsOk, EpochsOk, PricesOk;
    EnqueuedInOrder(mode, policy, s.hist, s.taken[a], s.taken[b], y, id);
  }

  /** What the writer takes was enqueued, once, in the order it was enqueued. */
  lemma TakenIsSubsequence(mode: Mode, policy: Policy, s: Stream)
    requires Reachable(mode, policy, s)
    ensures DropOldest.Increasing(s.taken, |s.hist|)
    ensures forall i | 0 <= i < |s.out.queue| ::
      |s.out.queue| <= |s.hist| && s.out.queue[i] == s.hist[|s.hist| - |s.out.queue| + i].msg
  {
    ReachableKeeps(mode, policy, s);
    hide HistOk, IdsOk, EpochsOk, PricesOk;
  }

  lemma {:induction false} IncreasingIsIdentity(places: seq<nat>, i: nat)
    requires DropOldest.Increasing(places, |places|) && i < |places|
    ensures places[i] == i
  {
    if |places| > 1 {
      var front := places[..|places| - 1];
      assert forall k | 0 <= k < |front| :: front[k] < places[|places| - 1];
      if i < |front| {
        IncreasingIsIdentity(front, i);
      } else {
        IncreasingIsIdentity(front, i - 1);
      }
    }
  }

  /** As long as nothing was dropped, the writer took exactly a prefix of what was enqueued. */
  lemma TakenIsPrefix(mode: Mode, policy: Policy, s: Stream, i: nat)
    requires Reachable(mode, policy, s) && s.out.dropped == 0 && i < |s.taken|
    ensures |s.taken| + |s.out.queue| == |s.hist| && s.taken[i] == i
  {
    ReachableKeeps(mode, policy, s);
    hide HistOk, IdsOk, EpochsOk, PricesOk;
    IncreasingIsIdentity(s.taken, i);
  }

  /** No entry of the epoch lies between the two. */
  ghost predicate Adjacent(hist: seq<Entry>, i: nat, j: nat, y: Symbol, id: nat) {
    SameEpoch(hist, i, j, y, id) && forall k | i < k < j :: !InEpoch(hist[k], y, id)
  }

  lemma {:induction false} AdjacentIsLatest(hist: seq<Entry>, i: nat, y: Symbol, id: nat)
    requires i < |hist| && InEpoch(hist[i], y, id) && forall k | i < k < |hist| :: !InEpoch(hist[k], y, id)
    ensures LatestIn(hist, y, id) == Some(hist[i].msg)
  {
    if i + 1 < |hist| {
      AdjacentIsLatest(hist[..|hist| - 1], i, y, id);
    }
  }

  lemma AdjacentFollows(mode: Mode, policy: Policy, s: Stream, i: nat, j: nat, y: Symbol, id: nat)
    requires Reachable(mode, policy, s) && Adjacent(s.hist, i, j, y, id)
    ensures Follows(mode, policy, s.hist[j].epoch.value.filter, s.hist[i].msg, s.hist[j].msg)
  {
    ReachableKeeps(mode, policy, s);
    hide IdsOk, EpochsOk, PricesOk, QueueOk, Follows;
    AdjacentIsLatest(s.hist[..j], i, y, id);
    assert LinkOk(mode, policy, s.hist[..j], s.hist[j]);
  }

  /** RAW contiguity under arbitrary loss, duplication and reordering: without a filter, and with the
      queue dropping its oldest, every incremental is exactly one past the data message before it in its
      epoch, so any jump is made by a snapshot with a larger sequence number. */
  lemma RawContiguity(s: Stream, i: nat, j: nat, y: Symbol, id: nat)
    requires Reachable(Raw, DropOldestPolicy, s) && Adjacent(s.hist, i, j, y, id)
      && s.hist[j].epoch.value.filter == None
    ensures s.hist[j].msg.Incremental? ==> s.hist[j].msg.SeqOf() == s.hist[i].msg.SeqOf() + 1
    ensures s.hist[j].msg.SeqOf() != s.hist[i].msg.SeqOf() + 1 ==>
      s.hist[j].msg.Snapshot? && s.hist[i].msg.SeqOf() < s.hist[j].msg.SeqOf()
  {
    AdjacentFollows(Raw, DropOldestPolicy, s, i, j, y, id);
  }

  /** The client's baseline is the last thing it was given: in an open epoch without a filter `last_seq`
      is the sequence number of the latest message enqueued for the symbol. */
  lemma BaselineIsLatest(mode: Mode, s: Stream, y: Symbol, i: nat)
    requires Reachable(mode, DropOldestPolicy, s) && y in s.epochs && y !in s.filters
    requires i < |s.hist| && InEpoch(s.hist[i], y, s.epochs[y].id) && forall k | i < k < |s.hist| ::
      !InEpoch(s.hist[k], y, s.epochs[y].id)
    ensures y in s.lastSeq && s.lastSeq[y] == s.hist[i].msg.SeqOf()
  {
    ReachableKeeps(mode, DropOldestPolicy, s);
    hide HistOk, IdsOk, PricesOk, QueueOk;
    AdjacentIsLatest(s.hist, i, y, s.epochs[y].id);
    assert EpochOk(s.out.policy, s.hist, y, s.epochs[y], s.epochCount, Lookup(s.lastSeq, y), Lookup(s.lastPrice, y),
      Lookup(s.filters, y));
  }

  // ---- filters ----

  /** Filter deadband: in an epoch with a minimum change, each incremental accepted after a message with a
      nonzero bid moved at least the threshold, less epsilon, from that bid. */
  lemma AcceptedMovedEnough(mode: Mode, policy: Policy, s: Stream, i: nat, j: nat, y: Symbol, id: nat,
                            minChangePct: real)
    requires Reachable(mode, policy, s) && Adjacent(s.hist, i, j, y, id) && s.hist[j].msg.Incremental?
    requires s.hist[j].epoch.value.filter.Some? && s.hist[j].epoch.value.filter.value.minChangePct == Some(minChangePct)
    requires s.hist[i].msg.BidOf() != 0.0
    ensures minChangePct <= ChangePct(s.hist[i].msg.BidOf(), s.hist[j].msg.BidOf()) + PERCENT_EPSILON
  {
    AdjacentFollows(mode, policy, s, i, j, y, id);
  }

  /** A present price baseline is the bid of the last data message enqueued for the symbol. */
  lemma PriceIsLastAccepted(mode: Mode, policy: Policy, s: Stream, y: Symbol)
    requires Reachable(mode, policy, s) && y in s.lastPrice
    ensures var latest := LatestEver(s.hist, y);
      latest.Some? && latest.value.IsData() && s.lastPrice[y] == latest.value.BidOf()
  {
    ReachableKeeps(mode, policy, s);
    hide HistOk, IdsOk, EpochsOk, QueueOk;
  }

  /** The client is never further off than the threshold: with no spread limit and the queue dropping its
      oldest, after every next event the last accepted bid is that event's or within the deadband of it. */
  lemma NextStaysWithinDeadband(mode: Mode, s: Stream)
    requires Reachable(mode, DropOldestPolicy, s) && s.dispatch.Idle? && s.aggregator.output != []
    requires var e := s.aggregator.output[0];
      && Classify(Lookup(s.lastSeq, e.symbol), e.seqNo, mode.Raw?) == Next
      && (e.symbol in s.filters ==> s.filters[e.symbol].maxSpread.None?)
    ensures var e, t := s.aggregator.output[0], Step1(s, DispatchNext);
      && e.symbol in t.lastPrice
      && (t.lastPrice[e.symbol] == e.bid ||
          (e.symbol in s.filters && s.filters[e.symbol].minChangePct.Some? &&
           WithinDeadband(t.lastPrice[e.symbol], e.bid, s.filters[e.symbol].minChangePct.value)))
  {
    hide Inv;
    ReachableKeeps(mode, DropOldestPolicy, s);
  }
}
