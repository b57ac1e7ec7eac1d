/** Every gap heals at once: nothing in flight is newer than the snapshot, whatever is lost, duplicated
    or reordered, so finishing an event always brings the baseline up to it. */
module GapHealing {
  import opened Events
  import opened Sequencing
  import opened Aggregation
  import opened Session
  import opened Streams
  import opened HandOff
  import DropOldest
  import StreamGuarantees

  ghost predicate Reachable(mode: Mode, policy: Policy, w: World) {
    exists steps :: w == WorldRun(Launched(mode, policy), steps)
  }

  /** The feed's events of each symbol are numbered consecutively. */
  ghost predicate FedOk(fed: map<Symbol, seq<MarketEvent>>) {
    forall y {:trigger y in fed} | y in fed ::
      fed[y] != [] && forall i | 0 <= i < |fed[y]| :: fed[y][i].symbol == y && fed[y][i].seqNo == fed[y][0].seqNo + i
  }

  predicate Numbered(fed: map<Symbol, seq<MarketEvent>>, y: Symbol, seqNo: int) {
    y in fed && fed[y] != [] && 0 <= seqNo - fed[y][0].seqNo < |fed[y]|
  }

  function FedAt(fed: map<Symbol, seq<MarketEvent>>, y: Symbol, seqNo: int): MarketEvent
    requires Numbered(fed, y, seqNo)
  {
    fed[y][seqNo - fed[y][0].seqNo]
  }

  /** `e` is an event the engine wrote. */
  ghost predicate IsFed(fed: map<Symbol, seq<MarketEvent>>, e: MarketEvent) {
    Numbered(fed, e.symbol, e.seqNo) && FedAt(fed, e.symbol, e.seqNo) == e
  }

  ghost predicate AllFed(fed: map<Symbol, seq<MarketEvent>>, events: seq<MarketEvent>) {
    forall i | 0 <= i < |events| :: IsFed(fed, events[i])
  }

  ghost predicate IsFedSnapshot(fed: map<Symbol, seq<MarketEvent>>, d: SnapshotData) {
    Numbered(fed, d.symbol, d.seqNo) && SnapshotOf(FedAt(fed, d.symbol, d.seqNo)) == d
  }

  ghost predicate IsFedMessage(fed: map<Symbol, seq<MarketEvent>>, m: Message) {
    match m
    case Snapshot(d) => IsFedSnapshot(fed, d)
    case Incremental(e) => IsFed(fed, e)
    case Notice(_) => true
  }

  ghost predicate JoiningFed(fed: map<Symbol, seq<MarketEvent>>, joining: Joining) {
    match joining
    case NotJoining => true
    case Buffering(init) => AllFed(fed, init.events)
    case SnapshotRead(init, snapshot) =>
      AllFed(fed, init.events) && (snapshot.Some? ==> IsFedSnapshot(fed, snapshot.value))
  }

  /** A fetched snapshot is at least as new as the event that asked for it. */
  ghost predicate DispatchFed(fed: map<Symbol, seq<MarketEvent>>, dispatch: Dispatch) {
    match dispatch
    case Fetching(e) => IsFed(fed, e)
    case Fetched(e, snapshot) =>
      && snapshot.Some? && IsFedSnapshot(fed, snapshot.value)
      && snapshot.value.symbol == e.symbol && e.seqNo <= snapshot.value.seqNo
    case _ => true
  }

  ghost predicate HistFed(fed: map<Symbol, seq<MarketEvent>>, hist: seq<Entry>) {
    forall i | 0 <= i < |hist| :: IsFedMessage(fed, hist[i].msg)
  }

  ghost predicate StreamFed(fed: map<Symbol, seq<MarketEvent>>, s: Stream) {
    && AllFed(fed, s.aggregator.window) && AllFed(fed, s.aggregator.output)
    && JoiningFed(fed, s.joining) && DispatchFed(fed, s.dispatch) && HistFed(fed, s.hist)
  }

  ghost predicate Inv(w: World) {
    FedOk(w.fed) && AllFed(w.fed, w.channel) && StreamFed(w.fed, w.stream)
  }

  // ---- small facts ----

  lemma AllFedAppend(fed: map<Symbol, seq<MarketEvent>>, a: seq<MarketEvent>, b: seq<MarketEvent>)
    requires AllFed(fed, a) && AllFed(fed, b)
    ensures AllFed(fed, a + b)
  {
  }

  lemma AllFedPart(fed: map<Symbol, seq<MarketEvent>>, a: seq<MarketEvent>, b: seq<MarketEvent>)
    requires AllFed(fed, a) && forall e | e in b :: e in a
    ensures AllFed(fed, b)
  {
    forall i | 0 <= i < |b| ensures IsFed(fed, b[i]) {
      assert b[i] in b;
      var j :| 0 <= j < |a| && a[j] == b[i];
    }
  }

  lemma {:induction false} BufferedMembers(window: seq<MarketEvent>, e: MarketEvent, x: MarketEvent)
    requires x in Buffered(window, e)
    ensures x == e || x in window
  {
    if window != [] && window[0].symbol != e.symbol && x != window[0] {
      BufferedMembers(window[1..], e, x);
    }
  }

  lemma PushedFed(fed: map<Symbol, seq<MarketEvent>>, a: Aggregator, e: MarketEvent)
    requires AllFed(fed, a.window) && AllFed(fed, a.output) && IsFed(fed, e)
    ensures AllFed(fed, Pushed(a, e).window) && AllFed(fed, Pushed(a, e).output)
  {
    var window := Buffered(a.window, e);
    forall x | x in window ensures x in a.window + [e] {
      BufferedMembers(a.window, e, x);
    }
    AllFedPart(fed, a.window + [e], window);
    AllFedPart(fed, a.output + [e], DropOldest.PutLatest(a.output, e, OUTPUT_MAX_SIZE));
  }

  lemma {:induction false} PushAllFed(fed: map<Symbol, seq<MarketEvent>>, a: Aggregator, events: seq<MarketEvent>)
    requires AllFed(fed, a.window) && AllFed(fed, a.output) && AllFed(fed, events)
    ensures AllFed(fed, PushAll(a, events).window) && AllFed(fed, PushAll(a, events).output)
  {
    if events != [] {
      AllFedPart(fed, events, events[..|events| - 1]);
      PushAllFed(fed, a, events[..|events| - 1]);
      PushedFed(fed, PushAll(a, events[..|events| - 1]), events[|events| - 1]);
    }
  }

  lemma {:induction false} PutAllMembers(output: seq<MarketEvent>, events: seq<MarketEvent>, x: MarketEvent)
    requires x in PutAll(output, events)
    ensures x in output || x in events
  {
    if events != [] {
      var front := PutAll(output, events[..|events| - 1]);
      if x in front {
        PutAllMembers(output, events[..|events| - 1], x);
      }
    }
  }

  lemma FlushedFed(fed: map<Symbol, seq<MarketEvent>>, a: Aggregator)
    requires AllFed(fed, a.window) && AllFed(fed, a.output)
    ensures AllFed(fed, Flushed(a).window) && AllFed(fed, Flushed(a).output)
  {
    forall x | x in PutAll(a.output, a.window) ensures x in a.output + a.window {
      PutAllMembers(a.output, a.window, x);
    }
    AllFedPart(fed, a.output + a.window, PutAll(a.output, a.window));
  }

  lemma {:induction false} InsertMembers(sorted: seq<MarketEvent>, e: MarketEvent, x: MarketEvent)
    requires x in InsertBySeq(sorted, e)
    ensures x == e || x in sorted
  {
    if sorted != [] && !(sorted[|sorted| - 1].seqNo <= e.seqNo) && x != sorted[|sorted| - 1] {
      InsertMembers(sorted[..|sorted| - 1], e, x);
    }
  }

  lemma {:induction false} SortMembers(events: seq<MarketEvent>, x: MarketEvent)
    requires x in SortBySeq(events)
    ensures x in events
  {
    if events != [] {
      InsertMembers(SortBySeq(events[..|events| - 1]), events[|events| - 1], x);
      if x != events[|events| - 1] {
        SortMembers(events[..|events| - 1], x);
      }
    }
  }

  lemma {:induction false} NewerMembers(events: seq<MarketEvent>, snapshot: Option<SnapshotData>, x: MarketEvent)
    requires x in Newer(events, snapshot)
    ensures x in events
  {
    if events != [] && x in Newer(events[..|events| - 1], snapshot) {
      NewerMembers(events[..|events| - 1], snapshot, x);
    }
  }

  lemma ReleasedFed(fed: map<Symbol, seq<MarketEvent>>, events: seq<MarketEvent>, snapshot: Option<SnapshotData>)
    requires AllFed(fed, events)
    ensures AllFed(fed, Newer(SortBySeq(events), snapshot))
  {
    forall x | x in Newer(SortBySeq(events), snapshot) ensures x in events {
      NewerMembers(SortBySeq(events), snapshot, x);
      SortMembers(events, x);
    }
    AllFedPart(fed, events, Newer(SortBySeq(events), snapshot));
  }

  // ---- the steps keep the invariant ----

  lemma OfferFed(fed: map<Symbol, seq<MarketEvent>>, s: Stream, m: Message)
    requires HistFed(fed, s.hist) && IsFedMessage(fed, m)
    ensures HistFed(fed, Offered(s, m).hist)
  {
  }

  lemma NotedFed(fed: map<Symbol, seq<MarketEvent>>, joining: Joining, e: MarketEvent)
    requires JoiningFed(fed, joining) && IsFed(fed, e)
    ensures JoiningFed(fed, NotedIn(joining, e))
  {
    hide IsFed, IsFedSnapshot;
  }

  lemma DeliverFed(fed: map<Symbol, seq<MarketEvent>>, s: Stream, e: MarketEvent)
    requires StreamFed(fed, s) && IsFed(fed, e)
    ensures StreamFed(fed, Delivered(s, e))
  {
    hide HistFed, Pushed, AllFed, IsFed, JoiningFed, DispatchFed, NotedIn;
    PushedFed(fed, s.aggregator, e);
    NotedFed(fed, s.joining, e);
  }

  lemma JoinFailedFed(fed: map<Symbol, seq<MarketEvent>>, s: Stream, reason: string)
    requires StreamFed(fed, s)
    ensures StreamFed(fed, JoinFailed(s, reason))
  {
    hide HistFed, AllFed, Offered;
    OfferFed(fed, s.(joining := NotJoining), Notice(reason));
  }

  lemma RefusedFed(fed: map<Symbol, seq<MarketEvent>>, s: Stream, m: Message)
    requires StreamFed(fed, s) && IsFedMessage(fed, m)
    ensures StreamFed(fed, Offered(s, m))
  {
    hide HistFed, AllFed, Offered, IsFedMessage;
    OfferFed(fed, s, m);
  }

  lemma JoinedFed(fed: map<Symbol, seq<MarketEvent>>, s: Stream)
    requires StreamFed(fed, s) && s.joining.SnapshotRead?
    ensures StreamFed(fed, Joined(s, s.joining.init, s.joining.snapshot))
  {
    hide HistFed, AllFed, Offered, PushAll, SortBySeq, Newer, IsFedSnapshot;
    var init, snapshot := s.joining.init, s.joining.snapshot;
    ReleasedFed(fed, init.events, snapshot);
    PushAllFed(fed, s.aggregator, Newer(SortBySeq(init.events), snapshot));
    if snapshot.Some? {
      OfferFed(fed, Registered(s, init, snapshot), Snapshot(snapshot.value));
    }
  }

  lemma ActivateFed(fed: map<Symbol, seq<MarketEvent>>, s: Stream)
    requires StreamFed(fed, s)
    ensures StreamFed(fed, Activated(s))
  {
    if s.joining.SnapshotRead? {
      JoinFailedFed(fed, s, "subscription failed");
      JoinedFed(fed, s);
      if s.joining.snapshot.Some? {
        RefusedFed(fed, s, Snapshot(s.joining.snapshot.value));
        JoinFailedFed(fed, Offered(s, Snapshot(s.joining.snapshot.value)), "subscription failed");
      }
    }
    hide StreamFed, Joined, JoinFailed, Offered;
  }

  lemma DispatchFedKeeps(fed: map<Symbol, seq<MarketEvent>>, s: Stream)
    requires StreamFed(fed, s)
    ensures StreamFed(fed, Dispatched(s)) && StreamFed(fed, Recovered(s))
  {
    hide HistFed, Offered, ShouldDeliver, Classify;
    if s.aggregator.output != [] {
      var e := s.aggregator.output[0];
      var rest := s.(aggregator := s.aggregator.(output := s.aggregator.output[1..]));
      AllFedPart(fed, s.aggregator.output, s.aggregator.output[1..]);
      OfferFed(fed, rest.(lastSeq := s.lastSeq[e.symbol := e.seqNo]), Incremental(e));
    }
    if s.dispatch.Fetched? && s.dispatch.snapshot.Some? {
      OfferFed(fed, s.(dispatch := Idle), Snapshot(s.dispatch.snapshot.value));
    }
  }

  lemma ClientFed(w: World, step: Streams.Step)
    requires Inv(w) && !step.ReadSnapshot? && !step.FetchAnswers?
    ensures Inv(ClientDid(w, step))
  {
    assert AllFed(w.fed, []);
    hide HistFed, AllFed, Activated, Dispatched, Recovered, Offered, Flushed;
    match step
    case Activate => ActivateFed(w.fed, w.stream);
    case DispatchNext => DispatchFedKeeps(w.fed, w.stream);
    case Recover => DispatchFedKeeps(w.fed, w.stream);
    case FlushWindow => FlushedFed(w.fed, w.stream.aggregator);
    case JoinFails(reason) => OfferFed(w.fed, w.stream.(joining := NotJoining), Notice(reason));
    case Notify(text) => OfferFed(w.fed, w.stream, Notice(text));
    case _ =>
  }

  /** What was written stays written. */
  ghost predicate Extends(fed: map<Symbol, seq<MarketEvent>>, fed': map<Symbol, seq<MarketEvent>>) {
    forall y {:trigger y in fed} {:trigger y in fed'} | y in fed :: y in fed' && fed[y] <= fed'[y]
  }

  lemma AllFedExtends(fed: map<Symbol, seq<MarketEvent>>, fed': map<Symbol, seq<MarketEvent>>, events: seq<MarketEvent>)
    requires Extends(fed, fed') && AllFed(fed, events)
    ensures AllFed(fed', events)
  {
  }

  lemma StreamFedExtends(fed: map<Symbol, seq<MarketEvent>>, fed': map<Symbol, seq<MarketEvent>>, s: Stream)
    requires Extends(fed, fed') && StreamFed(fed, s)
    ensures StreamFed(fed', s)
  {
    AllFedExtends(fed, fed', s.aggregator.window);
    AllFedExtends(fed, fed', s.aggregator.output);
    if !s.joining.NotJoining? {
      AllFedExtends(fed, fed', s.joining.init.events);
    }
    hide AllFed;
    forall i | 0 <= i < |s.hist| ensures IsFedMessage(fed', s.hist[i].msg) {
      assert IsFedMessage(fed, s.hist[i].msg);
    }
  }

  lemma UpdateFed(w: World, e: MarketEvent)
    requires Inv(w)
    ensures Inv(Updated(w, e))
  {
    var t := Updated(w, e);
    assert Extends(w.fed, t.fed);
    assert FedOk(t.fed) by { hide AllFed, StreamFed, Extends; }
    AllFedExtends(w.fed, t.fed, w.channel);
    StreamFedExtends(w.fed, t.fed, w.stream);
    hide FedOk, AllFed, StreamFed;
  }

  lemma NewestIsFed(w: World, y: Symbol)
    requires FedOk(w.fed) && History(w, y) != []
    ensures IsFed(w.fed, History(w, y)[|History(w, y)| - 1])
    ensures forall e | IsFed(w.fed, e) && e.symbol == y :: e.seqNo <= History(w, y)[|History(w, y)| - 1].seqNo
  {
    assert y in w.fed;
  }

  lemma PublishFed(w: World, y: Symbol)
    requires Inv(w)
    ensures Inv(PublishedCurrent(w, y))
  {
    hide StreamFed;
    if History(w, y) != [] {
      NewestIsFed(w, y);
      hide IsFed, FedOk;
    }
  }

  lemma ArriveFed(w: World)
    requires Inv(w)
    ensures Inv(WorldStep1(w, Arrive))
  {
    hide StreamFed, IsFed, FedOk;
    if w.channel != [] {
      DeliverFed(w.fed, w.stream, w.channel[0]);
    }
  }

  lemma ChannelFed(w: World, step: WorldStep)
    requires Inv(w) && !step.Update? && !step.Client?
    ensures Inv(WorldStep1(w, step))
  {
    hide StreamFed, IsFed, FedOk, PublishedCurrent;
    match step
    case PublishCurrent(y) => PublishFed(w, y);
    case Arrive => ArriveFed(w);
    case Swap(i) => AllFedPart(w.fed, w.channel, WorldStep1(w, step).channel);
    case _ =>
  }

  lemma SnapshotReadsFed(w: World, step: Streams.Step)
    requires Inv(w) && (step.ReadSnapshot? || step.FetchAnswers?)
    ensures Inv(ClientDid(w, step))
  {
    hide HistFed, AllFed;
    if step.ReadSnapshot? && w.stream.joining.Buffering? && History(w, w.stream.joining.init.symbol) != [] {
      NewestIsFed(w, w.stream.joining.init.symbol);
    }
    if step.FetchAnswers? && w.stream.dispatch.Fetching? {
      assert w.stream.dispatch.event.symbol in w.fed;
      NewestIsFed(w, w.stream.dispatch.event.symbol);
    }
  }

  lemma StepKeeps(w: World, step: WorldStep)
    requires Inv(w)
    ensures Inv(WorldStep1(w, step))
  {
    hide Inv;
    match step
    case Update(e) => UpdateFed(w, e);
    case Client(s) =>
      if s.ReadSnapshot? || s.FetchAnswers? {
        SnapshotReadsFed(w, s);
      } else {
        ClientFed(w, s);
      }
    case _ => ChannelFed(w, step);
  }

  lemma StepKeepsMode(w: World, step: WorldStep)
    ensures StreamGuarantees.Keeps(w.stream, WorldStep1(w, step).stream)
  {
    hide Step1;
    match step
    case Client(s) =>
      StreamGuarantees.StepKeepsMode(w.stream, s);
      if s.ReadSnapshot? && w.stream.joining.Buffering? {
        StreamGuarantees.StepKeepsMode(w.stream, Streams.ReadSnapshot(SnapshotNow(w, w.stream.joining.init.symbol)));
      }
      if s.FetchAnswers? && w.stream.dispatch.Fetching? {
        StreamGuarantees.StepKeepsMode(w.stream, Streams.FetchAnswers(SnapshotNow(w, w.stream.dispatch.event.symbol)));
      }
    case _ =>
  }

  lemma {:induction false} RunKeeps(mode: Mode, policy: Policy, steps: seq<WorldStep>)
    ensures var w := WorldRun(Launched(mode, policy), steps);
      Inv(w) && w.stream.aggregator.mode == mode && w.stream.out.policy == policy
  {
    if steps != [] {
      hide Inv, WorldStep1;
      StepKeepsMode(WorldRun(Launched(mode, policy), steps[..|steps| - 1]), steps[|steps| - 1]);
      RunKeeps(mode, policy, steps[..|steps| - 1]);
      StepKeeps(WorldRun(Launched(mode, policy), steps[..|steps| - 1]), steps[|steps| - 1]);
    }
  }

  lemma ReachableKeeps(mode: Mode, policy: Policy, w: World)
    requires Reachable(mode, policy, w)
    ensures Inv(w) && w.stream.aggregator.mode == mode && w.stream.out.policy == policy
  {
    hide Inv;
    var steps :| w == WorldRun(Launched(mode, policy), steps);
    RunKeeps(mode, policy, steps);
  }

  // ---- the guarantees ----

  /** Nothing on its way to the client is newer than the snapshot Redis would answer with now. */
  lemma NothingOvertakesSnapshot(mode: Mode, policy: Policy, w: World, e: MarketEvent)
    requires Reachable(mode, policy, w)
    requires e in w.channel || e in w.stream.aggregator.output || e in w.stream.aggregator.window
    ensures SnapshotNow(w, e.symbol).Some? && e.seqNo <= SnapshotNow(w, e.symbol).value.seqNo
  {
    ReachableKeeps(mode, policy, w);
    assert IsFed(w.fed, e) by { hide HistFed; }
    NewestIsFed(w, e.symbol);
  }

  /** The event whose handling the dispatch loop completes in this step, if any. */
  function Finishing(s: Stream, step: Streams.Step): Option<MarketEvent> {
    match step
    case DispatchNext =>
      if s.dispatch.Idle? && s.aggregator.output != [] && Step1(s, step).dispatch.Idle? then
        Some(s.aggregator.output[0]) else None
    case Recover => if s.dispatch.Fetched? then Some(s.dispatch.event) else None
    case _ => None
  }

  predicate Heals(x: MarketEvent, lastSeq: map<Symbol, int>) {
    x.symbol in lastSeq && x.seqNo <= lastSeq[x.symbol]
  }

  lemma DispatchHeals(s: Stream)
    requires s.dispatch.Idle? && s.aggregator.output != [] && Dispatched(s).dispatch.Idle?
    ensures Heals(s.aggregator.output[0], Dispatched(s).lastSeq)
  {
    hide Advanced;
  }

  lemma RecoverHeals(fed: map<Symbol, seq<MarketEvent>>, s: Stream)
    requires DispatchFed(fed, s.dispatch) && s.dispatch.Fetched?
    ensures Heals(s.dispatch.event, Recovered(s).lastSeq) <==> Accepts(s.out) || Heals(s.dispatch.event, s.lastSeq)
  {
    hide Offered, Enqueued, IsFedSnapshot, Accepts;
  }

  /** When a gap heals, exactly: in any mode and under either policy, after the dispatch loop finishes event X
      the baseline is at least X, unless X waited for its snapshot, the queue refuses that snapshot, and the
      baseline did not cover X meanwhile. */
  lemma GapHealsExactly(mode: Mode, policy: Policy, w: World, step: Streams.Step)
    requires Reachable(mode, policy, w)
    requires Finishing(w.stream, step).Some?
    ensures var x := Finishing(w.stream, step).value;
      Heals(x, ClientDid(w, step).stream.lastSeq) <==>
      (step.DispatchNext? || Accepts(w.stream.out) || Heals(x, w.stream.lastSeq))
  {
    ReachableKeeps(mode, policy, w);
    hide AllFed, HistFed, FedOk, Offered, ShouldDeliver, Accepts, Heals;
    if step.DispatchNext? {
      DispatchHeals(w.stream);
    } else {
      RecoverHeals(w.fed, w.stream);
    }
    hide Dispatched, Recovered;
  }

  /** Every gap heals at once: with the queue dropping its oldest, in any mode, after the dispatch loop
      finishes event X the baseline is at least X, whichever decision it took and whatever Pub/Sub or the
      aggregator lost, duplicated or reordered. */
  lemma EveryGapHeals(mode: Mode, w: World, step: Streams.Step)
    requires Reachable(mode, DropOldestPolicy, w)
    requires Finishing(w.stream, step).Some?
    ensures var x, t := Finishing(w.stream, step).value, ClientDid(w, step).stream;
      x.symbol in t.lastSeq && x.seqNo <= t.lastSeq[x.symbol]
  {
    ReachableKeeps(mode, DropOldestPolicy, w);
    GapHealsExactly(mode, DropOldestPolicy, w, step);
    hide Reachable, Inv, ClientDid, Finishing;
  }

  /** Nothing is invented: every data message ever enqueued is an event the engine wrote, or its snapshot. */
  lemma MessagesAreAuthentic(mode: Mode, policy: Policy, w: World, i: nat)
    requires Reachable(mode, policy, w) && i < |w.stream.hist|
    ensures IsFedMessage(w.fed, w.stream.hist[i].msg)
  {
    ReachableKeeps(mode, policy, w);
  }
}
