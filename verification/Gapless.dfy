/** The gapless hand-off: a client's first unfiltered RAW subscribe to a symbol gets the snapshot N and then
    exactly N+1, N+2, ..., whatever the interleaving of engine, Pub/Sub, subscribe call and dispatch. */
module Gapless {
  import opened Events
  import opened Sequencing
  import opened Aggregation
  import opened Session
  import opened Streams
  import opened HandOff
  import opened GapHealing
  import DropOldest
  import StreamGuarantees

  // ---- what classification does to a stretch of events ----

  /** The baseline after classifying the events in turn, or `None` if a gap shows up. */
  function Follow(last: Option<int>, events: seq<MarketEvent>): Option<Option<int>> {
    if events == [] then Some(last)
    else
      var before, e := Follow(last, events[..|events| - 1]), events[|events| - 1];
      if before.None? || Classify(before.value, e.seqNo, true) == Gap then None
      else Some(Baseline(before.value, e.seqNo, true))
  }

  function Later(a: Option<int>, b: Option<int>): Option<int> {
    if a.None? then b else if b.None? then a else if a.value < b.value then b else a
  }

  lemma {:induction false} FollowAppend(last: Option<int>, a: seq<MarketEvent>, b: seq<MarketEvent>)
    ensures Follow(last, a + b) == if Follow(last, a).None? then None else Follow(Follow(last, a).value, b)
  {
    if b == [] {
      assert a + b == a;
    } else {
      FollowAppend(last, a, b[..|b| - 1]);
      assert (a + b)[..|a + b| - 1] == a + b[..|b| - 1];
    }
  }

  lemma FollowHead(last: Option<int>, x: MarketEvent, rest: seq<MarketEvent>)
    ensures Follow(last, [x] + rest) ==
            if Classify(last, x.seqNo, true) == Gap then None else Follow(Baseline(last, x.seqNo, true), rest)
  {
    FollowAppend(last, [x], rest);
    assert [x][..0] == [];
  }

  lemma {:induction false} FollowNeverGoesBack(last: Option<int>, events: seq<MarketEvent>)
    ensures Follow(last, events).Some? && last.Some? ==>
      Follow(last, events).value.Some? && last.value <= Follow(last, events).value.value
    ensures Follow(last, events) == Some(None) ==> events == [] && last == None
  {
    if events != [] {
      FollowNeverGoesBack(last, events[..|events| - 1]);
    }
  }

  lemma {:induction false} FollowStale(n: int, events: seq<MarketEvent>)
    requires forall i | 0 <= i < |events| :: events[i].seqNo <= n
    ensures Follow(Some(n), events) == Some(Some(n))
  {
    if events != [] {
      FollowStale(n, events[..|events| - 1]);
    }
  }

  /** Discarding what the snapshot covers does not change where classification ends. */
  lemma {:induction false} FollowNewer(d: SnapshotData, events: seq<MarketEvent>)
    ensures Follow(Some(d.seqNo), Newer(events, Some(d))) == Follow(Some(d.seqNo), events)
  {
    if events != [] {
      var front := events[..|events| - 1];
      FollowNewer(d, front);
      FollowNeverGoesBack(Some(d.seqNo), front);
    }
  }

  lemma {:induction false} NewerWithoutSnapshot(events: seq<MarketEvent>)
    ensures Newer(events, None) == events
  {
    if events != [] {
      NewerWithoutSnapshot(events[..|events| - 1]);
    }
  }

  lemma {:induction false} SortOfSorted(events: seq<MarketEvent>)
    requires NeverDecreases(events)
    ensures SortBySeq(events) == events
  {
    if events != [] {
      SortOfSorted(events[..|events| - 1]);
    }
  }

  lemma {:induction false} OnSymbolOfAll(events: seq<MarketEvent>, y: Symbol)
    requires forall i | 0 <= i < |events| :: events[i].symbol == y
    ensures OnSymbol(events, y) == events
    ensures forall z | z != y :: OnSymbol(events, z) == []
  {
    if events != [] {
      OnSymbolOfAll(events[..|events| - 1], y);
    }
  }

  lemma {:induction false} NewerKeepsSymbol(events: seq<MarketEvent>, snapshot: Option<SnapshotData>, y: Symbol)
    requires forall i | 0 <= i < |events| :: events[i].symbol == y
    ensures forall i | 0 <= i < |Newer(events, snapshot)| :: Newer(events, snapshot)[i].symbol == y
  {
    if events != [] {
      NewerKeepsSymbol(events[..|events| - 1], snapshot, y);
    }
  }

  lemma SortKeepsSymbol(events: seq<MarketEvent>, y: Symbol)
    requires forall i | 0 <= i < |events| :: events[i].symbol == y
    ensures forall i | 0 <= i < |SortBySeq(events)| :: SortBySeq(events)[i].symbol == y
  {
    forall i | 0 <= i < |SortBySeq(events)| ensures SortBySeq(events)[i].symbol == y {
      SortMembers(events, SortBySeq(events)[i]);
    }
  }

  lemma {:induction false} PushAllAppends(a: Aggregator, events: seq<MarketEvent>)
    requires a.mode == Raw && !Overflows(a, |events|)
    ensures PushAll(a, events) == a.(output := a.output + events)
  {
    if events == [] {
      assert a.output + events == a.output;
    } else {
      PushAllAppends(a, events[..|events| - 1]);
      assert a.output + events == (a.output + events[..|events| - 1]) + [events[|events| - 1]];
    }
  }

  lemma {:induction false} OnSymbolFed(fed: map<Symbol, seq<MarketEvent>>, events: seq<MarketEvent>, y: Symbol)
    requires AllFed(fed, events)
    ensures forall i | 0 <= i < |OnSymbol(events, y)| ::
      OnSymbol(events, y)[i].symbol == y && IsFed(fed, OnSymbol(events, y)[i])
  {
    if events != [] {
      AllFedPart(fed, events, events[..|events| - 1]);
      OnSymbolFed(fed, events[..|events| - 1], y);
    }
  }

  // ---- being on track ----

  function FirstFed(fed: map<Symbol, seq<MarketEvent>>, y: Symbol): Option<MarketEvent> {
    if y in fed && fed[y] != [] then Some(fed[y][0]) else None
  }

  /** The last sequence number published at least once; only the newest may still be unpublished. */
  function PublishedUpTo(fed: map<Symbol, seq<MarketEvent>>, published: set<Symbol>, y: Symbol): Option<int> {
    if y !in fed || fed[y] == [] then None
    else if y in published then Some(fed[y][|fed[y]| - 1].seqNo)
    else if 1 < |fed[y]| then Some(fed[y][|fed[y]| - 2].seqNo)
    else None
  }

  /** From baseline `last`, the events on their way lead without a gap to everything published. */
  ghost predicate OnTrack(first: Option<MarketEvent>, upTo: Option<int>, last: Option<int>, events: seq<MarketEvent>) {
    && Follow(last, events) == Some(Later(last, upTo))
    && (last.None? && events != [] ==> first == Some(events[0]))
  }

  function DataOn(hist: seq<Entry>, y: Symbol): seq<Message> {
    if hist == [] then []
    else
      var front, m := DataOn(hist[..|hist| - 1], y), hist[|hist| - 1].msg;
      if m.IsData() && m.SymbolOf() == y then front + [m] else front
  }

  /** What the client was told: one snapshot or the very first event, then consecutive incrementals, ending
      at the baseline. */
  ghost predicate Told(first: Option<MarketEvent>, told: seq<Message>, last: Option<int>) {
    && (forall i | 0 <= i < |told| :: told[i].IsData())
    && (told == [] ==> last == None)
    && (told != [] ==>
          && last == Some(told[|told| - 1].SeqOf())
          && (told[0].Incremental? ==> first == Some(told[0].event)))
    && (forall i | 0 < i < |told| :: told[i].Incremental? && told[i].SeqOf() == told[0].SeqOf() + i)
  }

  predicate Joins(joining: Joining, y: Symbol) {
    !joining.NotJoining? && joining.init.symbol == y
  }

  predicate Awaits(dispatch: Dispatch, y: Symbol) {
    (dispatch.Fetching? || dispatch.Fetched?) && dispatch.event.symbol == y
  }

  function SeqOfSnapshot(snapshot: Option<SnapshotData>): Option<int> {
    if snapshot.Some? then Some(snapshot.value.seqNo) else None
  }

  /** A subscribe in progress buffers its symbol's events; once the snapshot is read they lead on from it. */
  ghost predicate JoinOk(first: Option<MarketEvent>, upTo: Option<int>, joining: Joining, y: Symbol,
                         coming: seq<MarketEvent>)
  {
    && (joining.SnapshotRead? ==> SnapshotFor(joining.snapshot, joining.init.symbol))
    && (!joining.NotJoining? ==>
         forall i | 0 <= i < |joining.init.events| :: joining.init.events[i].symbol == joining.init.symbol)
    && (Joins(joining, y) ==>
         joining.init.filter == None
         && (!joining.init.overflowed ==> NeverDecreases(joining.init.events + coming)))
    && (Joins(joining, y) && joining.SnapshotRead? && !joining.init.overflowed ==>
          OnTrack(first, upTo, SeqOfSnapshot(joining.snapshot), joining.init.events + coming))
  }

  ghost predicate NumberedLast(fed: map<Symbol, seq<MarketEvent>>, y: Symbol, last: Option<int>) {
    last.Some? ==> Numbered(fed, y, last.value)
  }

  /** The client of an active subscription. */
  ghost predicate ActiveOk(first: Option<MarketEvent>, upTo: Option<int>, s: Stream, y: Symbol,
                           coming: seq<MarketEvent>)
  {
    && !Joins(s.joining, y) && y !in s.filters && !Awaits(s.dispatch, y)
    && OnTrack(first, upTo, Lookup(s.lastSeq, y), OnSymbol(s.aggregator.output, y) + coming)
    && Told(first, DataOn(s.hist, y), Lookup(s.lastSeq, y))
  }

  /** The client without one: nothing of the symbol has reached it. */
  ghost predicate Untouched(s: Stream, y: Symbol) {
    && y !in s.lastSeq && OnSymbol(s.aggregator.output, y) == [] && DataOn(s.hist, y) == [] && !Awaits(s.dispatch, y)
  }

  ghost predicate Raw1(s: Stream) {
    s.aggregator.mode == Raw && s.out.policy == DropOldestPolicy && s.aggregator.window == []
  }

  ghost predicate StreamTrack(fed: map<Symbol, seq<MarketEvent>>, published: set<Symbol>, s: Stream, y: Symbol,
                              coming: seq<MarketEvent>)
  {
    var first, upTo := FirstFed(fed, y), PublishedUpTo(fed, published, y);
    && Raw1(s) && NumberedLast(fed, y, Lookup(s.lastSeq, y))
    && JoinOk(first, upTo, s.joining, y, coming)
    && (if y in s.subscriptions then ActiveOk(first, upTo, s, y, coming) else Untouched(s, y))
  }

  ghost predicate AskedOk(w: World, y: Symbol) {
    && (y in w.asked ==> y in w.listening)
    && (y !in w.asked ==> y !in w.stream.subscriptions && !Joins(w.stream.joining, y))
  }

  ghost predicate Track(w: World, y: Symbol) {
    && NeverDecreases(OnSymbol(w.channel, y)) && AskedOk(w, y)
    && StreamTrack(w.fed, w.published, w.stream, y, OnSymbol(w.channel, y))
  }

  // ---- the engine's steps ----

  lemma OnTrackAfterPublish(fed: map<Symbol, seq<MarketEvent>>, published: set<Symbol>, y: Symbol, last: Option<int>,
                            events: seq<MarketEvent>)
    requires FedOk(fed) && y in fed && NumberedLast(fed, y, last)
    requires OnTrack(FirstFed(fed, y), PublishedUpTo(fed, published, y), last, events)
    ensures OnTrack(FirstFed(fed, y), PublishedUpTo(fed, published + {y}, y), last, events + [fed[y][|fed[y]| - 1]])
  {
    var newest := fed[y][|fed[y]| - 1];
    FollowAppend(last, events, [newest]);
    assert [newest][..0] == [];
    FollowNeverGoesBack(last, events);
    if 1 < |fed[y]| {
      assert fed[y][|fed[y]| - 2].seqNo == newest.seqNo - 1;
    }
  }

  lemma PublishTracks(fed: map<Symbol, seq<MarketEvent>>, published: set<Symbol>, s: Stream, y: Symbol,
                      coming: seq<MarketEvent>)
    requires FedOk(fed) && y in fed && StreamTrack(fed, published, s, y, coming) && JoiningFed(fed, s.joining)
    requires NeverDecreases(coming) && AllFed(fed, coming) && forall i | 0 <= i < |coming| :: coming[i].symbol == y
    ensures StreamTrack(fed, published + {y}, s, y, coming + [fed[y][|fed[y]| - 1]])
    ensures NeverDecreases(coming + [fed[y][|fed[y]| - 1]])
  {
    var newest := fed[y][|fed[y]| - 1];
    var more := coming + [newest];
    hide Follow, Told, DataOn, OnSymbol;
    if Joins(s.joining, y) {
      var events := s.joining.init.events;
      assert events + more == (events + coming) + [newest];
      assert NeverDecreases(events + coming) ==> NeverDecreases(events + more);
      if s.joining.SnapshotRead? && !s.joining.init.overflowed {
        hide NeverDecreases;
        OnTrackAfterPublish(fed, published, y, SeqOfSnapshot(s.joining.snapshot), events + coming);
      }
    }
    if y in s.subscriptions {
      var output := OnSymbol(s.aggregator.output, y);
      assert output + more == (output + coming) + [newest];
      hide NeverDecreases;
      OnTrackAfterPublish(fed, published, y, Lookup(s.lastSeq, y), output + coming);
    }
  }

  lemma UpdateTracks(w: World, e: MarketEvent, y: Symbol)
    requires Inv(w) && Track(w, y)
    ensures Track(Updated(w, e), y)
  {
    var t := Updated(w, e);
    if t != w && e.symbol == y {
      hide StreamFed, Follow, Told, NeverDecreases, OnSymbol, DataOn;
      if History(w, y) == [] {
        NothingOnItsWay(w, y);
        UpdateOfFirst(w, e);
      } else {
        assert FirstFed(t.fed, y) == FirstFed(w.fed, y);
        assert PublishedUpTo(t.fed, t.published, y) == PublishedUpTo(w.fed, w.published, y);
        assert NumberedLast(t.fed, y, Lookup(w.stream.lastSeq, y));
      }
    } else if t != w {
      assert FirstFed(t.fed, y) == FirstFed(w.fed, y);
      assert PublishedUpTo(t.fed, t.published, y) == PublishedUpTo(w.fed, w.published, y);
      assert NumberedLast(t.fed, y, Lookup(w.stream.lastSeq, y));
      hide NeverDecreases, JoinOk, ActiveOk, Untouched, OnSymbol;
    }
  }

  /** Before its first event nothing of a symbol is anywhere. */
  lemma NothingOnItsWay(w: World, y: Symbol)
    requires Inv(w) && Track(w, y) && y !in w.fed
    ensures OnSymbol(w.channel, y) == [] && OnSymbol(w.stream.aggregator.output, y) == []
      && DataOn(w.stream.hist, y) == []
    ensures y !in w.stream.lastSeq
    ensures Joins(w.stream.joining, y) ==>
      w.stream.joining.init.events == [] && (w.stream.joining.SnapshotRead? ==> w.stream.joining.snapshot == None)
  {
    NothingFedOn(w.fed, w.channel, y);
    NothingFedOn(w.fed, w.stream.aggregator.output, y);
    NothingToldOn(w.fed, w.stream.hist, y);
    if Joins(w.stream.joining, y) {
      NothingFedOn(w.fed, w.stream.joining.init.events, y);
      OnSymbolOfAll(w.stream.joining.init.events, y);
    }
    hide OnSymbol, Follow, Told, HistFed, AllFed;
  }

  lemma {:induction false} NothingFedOn(fed: map<Symbol, seq<MarketEvent>>, events: seq<MarketEvent>, y: Symbol)
    requires AllFed(fed, events) && y !in fed
    ensures OnSymbol(events, y) == []
  {
    if events != [] {
      AllFedPart(fed, events, events[..|events| - 1]);
      NothingFedOn(fed, events[..|events| - 1], y);
      assert IsFed(fed, events[|events| - 1]);
    }
  }

  lemma {:induction false} NothingToldOn(fed: map<Symbol, seq<MarketEvent>>, hist: seq<Entry>, y: Symbol)
    requires HistFed(fed, hist) && y !in fed
    ensures DataOn(hist, y) == []
  {
    if hist != [] {
      var front := hist[..|hist| - 1];
      assert HistFed(fed, front) by {
        forall i | 0 <= i < |front| ensures IsFedMessage(fed, front[i].msg) {
          assert front[i] == hist[i];
        }
      }
      NothingToldOn(fed, front, y);
      assert IsFedMessage(fed, hist[|hist| - 1].msg);
    }
  }

  lemma {:induction false} DataFed(fed: map<Symbol, seq<MarketEvent>>, hist: seq<Entry>, y: Symbol)
    requires HistFed(fed, hist)
    ensures forall i | 0 <= i < |DataOn(hist, y)| ::
      DataOn(hist, y)[i].IsData() && DataOn(hist, y)[i].SymbolOf() == y && IsFedMessage(fed, DataOn(hist, y)[i])
  {
    if hist != [] {
      var front := hist[..|hist| - 1];
      assert HistFed(fed, front) by {
        forall i | 0 <= i < |front| ensures IsFedMessage(fed, front[i].msg) {
          assert front[i] == hist[i];
        }
      }
      DataFed(fed, front, y);
      assert IsFedMessage(fed, hist[|hist| - 1].msg);
    }
  }

  lemma UpdateOfFirst(w: World, e: MarketEvent)
    requires Inv(w) && Track(w, e.symbol) && e.symbol !in w.fed
    ensures Track(Updated(w, e), e.symbol)
  {
    var y, s := e.symbol, w.stream;
    NothingOnItsWay(w, y);
    var none: seq<MarketEvent> := [];
    assert none + none == none;
    assert FirstFed(Updated(w, e).fed, y) == Some(e)
      && PublishedUpTo(Updated(w, e).fed, Updated(w, e).published, y) == None;
    assert PublishedUpTo(w.fed, w.published, y) == None;
    hide Inv, OnSymbol, DataOn;
  }

  // ---- a delivery ----

  lemma OnSymbolHead(x: MarketEvent, rest: seq<MarketEvent>, y: Symbol)
    ensures OnSymbol([x] + rest, y) == (if x.symbol == y then [x] else []) + OnSymbol(rest, y)
  {
    OnSymbolOfAppend([x], rest, y);
    OnSymbolOfOne(x, y);
  }

  lemma DeliveryAppends(s: Stream, x: MarketEvent, y: Symbol)
    requires Raw1(s) && !Delivered(s, x).overflowed
    ensures var t := Delivered(s, x);
      && Raw1(t) && (x.symbol in s.subscriptions ==> t.aggregator.output == s.aggregator.output + [x])
      && OnSymbol(t.aggregator.output, y) ==
         OnSymbol(s.aggregator.output, y) + if x.symbol == y && y in s.subscriptions then [x] else []
  {
    OnSymbolOfAppend(s.aggregator.output, [x], y);
    OnSymbolOfOne(x, y);
  }

  /** Nothing about `y` that the client's claims speak of differs, except where its events are. */
  ghost predicate SameView(s: Stream, t: Stream, y: Symbol) {
    && (y in t.subscriptions <==> y in s.subscriptions) && (y in t.filters <==> y in s.filters)
    && Lookup(t.lastSeq, y) == Lookup(s.lastSeq, y) && DataOn(t.hist, y) == DataOn(s.hist, y)
    && (Awaits(t.dispatch, y) ==> Awaits(s.dispatch, y)) && (Raw1(s) ==> Raw1(t))
  }

  lemma ViewMoves(first: Option<MarketEvent>, upTo: Option<int>, s: Stream, t: Stream, y: Symbol,
                  coming: seq<MarketEvent>, coming': seq<MarketEvent>)
    requires SameView(s, t, y) && (Joins(t.joining, y) ==> Joins(s.joining, y))
    ensures
      ActiveOk(first, upTo, s, y, coming)
      && OnSymbol(t.aggregator.output, y) + coming' == OnSymbol(s.aggregator.output, y) + coming ==>
        ActiveOk(first, upTo, t, y, coming')
    ensures Untouched(s, y) && OnSymbol(t.aggregator.output, y) == OnSymbol(s.aggregator.output, y) ==> Untouched(t, y)
  {
    hide OnTrack, Told, DataOn, OnSymbol;
  }

  lemma OtherBuffered(first: Option<MarketEvent>, upTo: Option<int>, joining: Joining, x: MarketEvent, y: Symbol,
                      coming: seq<MarketEvent>)
    requires JoinOk(first, upTo, joining, y, coming) && x.symbol != y
    ensures JoinOk(first, upTo, NotedIn(joining, x), y, coming) && Joins(NotedIn(joining, x), y) == Joins(joining, y)
  {
    hide OnTrack, NeverDecreases;
  }

  lemma ArrivalView(s: Stream, x: MarketEvent, y: Symbol)
    requires Raw1(s) && !Delivered(s, x).overflowed
    ensures SameView(s, Delivered(s, x), y) && Delivered(s, x).joining == NotedIn(s.joining, x)
  {
    hide DataOn, OnSymbol, Pushed, NotedIn;
    DeliveryAppends(s, x, y);
  }

  lemma OtherArrives(fed: map<Symbol, seq<MarketEvent>>, published: set<Symbol>, s: Stream, x: MarketEvent, y: Symbol,
                     coming: seq<MarketEvent>)
    requires StreamTrack(fed, published, s, y, coming) && x.symbol != y && !Delivered(s, x).overflowed
    ensures StreamTrack(fed, published, Delivered(s, x), y, coming)
  {
    hide JoinOk, ActiveOk, Untouched, OnSymbol, PublishedUpTo, FirstFed, Delivered, NotedIn, SameView;
    ArrivalView(s, x, y);
    DeliveryAppends(s, x, y);
    OtherBuffered(FirstFed(fed, y), PublishedUpTo(fed, published, y), s.joining, x, y, coming);
    TrackMoves(fed, published, s, Delivered(s, x), y, coming);
  }

  lemma OwnBuffered(first: Option<MarketEvent>, upTo: Option<int>, joining: Joining, x: MarketEvent,
                    coming: seq<MarketEvent>)
    requires JoinOk(first, upTo, joining, x.symbol, [x] + coming)
    ensures JoinOk(first, upTo, NotedIn(joining, x), x.symbol, coming)
      && Joins(NotedIn(joining, x), x.symbol) == Joins(joining, x.symbol)
  {
    if !joining.NotJoining? {
      assert (joining.init.events + [x]) + coming == joining.init.events + ([x] + coming);
    }
    hide OnTrack, NeverDecreases;
  }

  /** An arriving event moves from the channel to where the client's baseline will meet it. */
  lemma OwnArrives(fed: map<Symbol, seq<MarketEvent>>, published: set<Symbol>, s: Stream, x: MarketEvent, y: Symbol,
                   coming: seq<MarketEvent>)
    requires StreamTrack(fed, published, s, y, [x] + coming) && x.symbol == y && !Delivered(s, x).overflowed
    ensures StreamTrack(fed, published, Delivered(s, x), y, coming)
  {
    var t := Delivered(s, x);
    var first, upTo := FirstFed(fed, y), PublishedUpTo(fed, published, y);
    hide JoinOk, ActiveOk, Untouched, OnSymbol, DataOn, PublishedUpTo, FirstFed, Delivered, NotedIn;
    ArrivalView(s, x, y);
    DeliveryAppends(s, x, y);
    assert y in s.subscriptions ==>
      OnSymbol(t.aggregator.output, y) + coming == OnSymbol(s.aggregator.output, y) + ([x] + coming);
    OwnBuffered(first, upTo, s.joining, x, coming);
    ViewMoves(first, upTo, s, t, y, [x] + coming, coming);
  }

  lemma TailNeverDecreases(x: MarketEvent, rest: seq<MarketEvent>)
    requires NeverDecreases([x] + rest)
    ensures NeverDecreases(rest)
  {
    forall i, j | 0 <= i < j < |rest| ensures rest[i].seqNo <= rest[j].seqNo {
      assert ([x] + rest)[i + 1] == rest[i] && ([x] + rest)[j + 1] == rest[j];
    }
  }

  lemma ArriveTracks(w: World, y: Symbol)
    requires Track(w, y) && w.channel != [] && !Delivered(w.stream, w.channel[0]).overflowed
    ensures Track(WorldStep1(w, Arrive), y)
  {
    var x, rest := w.channel[0], w.channel[1..];
    assert w.channel == [x] + rest;
    OnSymbolHead(x, rest, y);
    var coming := OnSymbol(rest, y);
    if x.symbol == y {
      TailNeverDecreases(x, coming);
      OwnArrives(w.fed, w.published, w.stream, x, y, coming);
    } else {
      assert OnSymbol(w.channel, y) == coming;
      OtherArrives(w.fed, w.published, w.stream, x, y, coming);
    }
    assert Delivered(w.stream, x).subscriptions == w.stream.subscriptions;
    assert Joins(Delivered(w.stream, x).joining, y) == Joins(w.stream.joining, y);
    hide StreamTrack, OnSymbol, NeverDecreases, Delivered;
  }

  // ---- the client's steps ----

  lemma DataOfOffer(s: Stream, m: Message, y: Symbol)
    requires s.out.policy == DropOldestPolicy
    ensures DataOn(Offered(s, m).hist, y) == DataOn(s.hist, y) + if m.IsData() && m.SymbolOf() == y then [m] else []
  {
    var e := Entry(m, if m.IsData() then Lookup(s.epochs, m.SymbolOf()) else None);
    assert Offered(s, m).hist == s.hist + [e];
    assert (s.hist + [e])[..|s.hist|] == s.hist;
  }

  /** Whatever was buffered before the read is covered by the snapshot. */
  lemma ReadIsOnTrack(w: World, y: Symbol, events: seq<MarketEvent>)
    requires FedOk(w.fed) && AllFed(w.fed, events) && forall i | 0 <= i < |events| :: events[i].symbol == y
    ensures OnTrack(FirstFed(w.fed, y), PublishedUpTo(w.fed, w.published, y), SeqOfSnapshot(SnapshotNow(w, y)), events)
  {
    assert events != [] ==> IsFed(w.fed, events[0]);
    if History(w, y) != [] {
      NewestIsFed(w, y);
      forall i | 0 <= i < |events| ensures events[i].seqNo <= History(w, y)[|History(w, y)| - 1].seqNo {
        assert IsFed(w.fed, events[i]);
      }
      FollowStale(w.fed[y][|w.fed[y]| - 1].seqNo, events);
      assert 1 < |w.fed[y]| ==> w.fed[y][|w.fed[y]| - 2].seqNo == w.fed[y][|w.fed[y]| - 1].seqNo - 1;
    }
  }

  lemma ReadTracks(w: World, y: Symbol)
    requires Inv(w) && Track(w, y) && w.stream.joining.Buffering? && w.stream.joining.init.symbol == y
    ensures Track(ClientDid(w, Streams.ReadSnapshot(None)), y)
  {
    var init, coming := w.stream.joining.init, OnSymbol(w.channel, y);
    OnSymbolFed(w.fed, w.channel, y);
    AllFedAppend(w.fed, init.events, coming);
    ReadIsOnTrack(w, y, init.events + coming);
    hide StreamFed, OnTrack, Told, NeverDecreases, OnSymbol, DataOn, AllFed, FirstFed, PublishedUpTo, FedOk;
  }

  /** A released buffer leads on from the snapshot exactly as the whole buffer did. */
  lemma ReleaseTracks(first: Option<MarketEvent>, upTo: Option<int>, events: seq<MarketEvent>,
                      snapshot: Option<SnapshotData>, coming: seq<MarketEvent>)
    requires NeverDecreases(events + coming) && OnTrack(first, upTo, SeqOfSnapshot(snapshot), events + coming)
    ensures OnTrack(first, upTo, SeqOfSnapshot(snapshot), Newer(SortBySeq(events), snapshot) + coming)
  {
    FrontNeverDecreases(events, coming);
    SortOfSorted(events);
    if snapshot.None? {
      NewerWithoutSnapshot(events);
    } else {
      FollowNewer(snapshot.value, events);
      FollowAppend(Some(snapshot.value.seqNo), events, coming);
      FollowAppend(Some(snapshot.value.seqNo), Newer(events, snapshot), coming);
    }
  }

  lemma FrontNeverDecreases(a: seq<MarketEvent>, b: seq<MarketEvent>)
    requires NeverDecreases(a + b)
    ensures NeverDecreases(a)
  {
    forall i, j | 0 <= i < j < |a| ensures a[i].seqNo <= a[j].seqNo {
      assert (a + b)[i] == a[i] && (a + b)[j] == a[j];
    }
  }

  // ---- activation ----

  lemma TrackMoves(fed: map<Symbol, seq<MarketEvent>>, published: set<Symbol>, s: Stream, t: Stream, y: Symbol,
                   coming: seq<MarketEvent>)
    requires StreamTrack(fed, published, s, y, coming) && SameView(s, t, y)
      && (Joins(t.joining, y) ==> Joins(s.joining, y))
    requires OnSymbol(t.aggregator.output, y) == OnSymbol(s.aggregator.output, y)
    requires JoinOk(FirstFed(fed, y), PublishedUpTo(fed, published, y), t.joining, y, coming)
    ensures StreamTrack(fed, published, t, y, coming)
  {
    ViewMoves(FirstFed(fed, y), PublishedUpTo(fed, published, y), s, t, y, coming, coming);
    hide OnTrack, Told, DataOn, OnSymbol, ActiveOk, Untouched, JoinOk, FirstFed, PublishedUpTo;
  }

  lemma OfferIsOther(s: Stream, m: Message, y: Symbol)
    requires Raw1(s) && (m.IsData() ==> m.SymbolOf() != y)
    ensures SameView(s, Offered(s, m), y)
  {
    DataOfOffer(s, m, y);
    hide DataOn, Offered;
  }

  /** The baselines of another symbol do not matter. */
  lemma BaselinesOfOther(s: Stream, z: Symbol, seqNo: int, bid: real, y: Symbol)
    requires z != y
    ensures SameView(s, s.(lastSeq := s.lastSeq[z := seqNo], lastPrice := s.lastPrice[z := bid]), y)
    ensures SameView(s, s.(lastSeq := s.lastSeq[z := seqNo]), y)
      && SameView(s, s.(lastPrice := s.lastPrice[z := bid]), y)
  {
    hide DataOn;
  }

  lemma ViewsCompose(s: Stream, t: Stream, u: Stream, y: Symbol)
    requires SameView(s, t, y) && SameView(t, u, y)
    ensures SameView(s, u, y)
  {
    hide DataOn, Raw1;
  }

  lemma JoinFailureTracks(fed: map<Symbol, seq<MarketEvent>>, published: set<Symbol>, s: Stream, y: Symbol,
                          coming: seq<MarketEvent>, reason: string)
    requires StreamTrack(fed, published, s, y, coming)
    ensures StreamTrack(fed, published, JoinFailed(s, reason), y, coming)
    ensures JoinFailed(s, reason).subscriptions == s.subscriptions && JoinFailed(s, reason).joining == NotJoining
  {
    OfferIsOther(s.(joining := NotJoining), Notice(reason), y);
    assert SameView(s, s.(joining := NotJoining), y);
    if !s.joining.NotJoining? {
      TrackMoves(fed, published, s, JoinFailed(s, reason), y, coming);
    }
    hide StreamTrack, DataOn, OnSymbol, Offered;
  }

  lemma RegistrationAppends(s: Stream, y: Symbol)
    requires Raw1(s) && s.joining.SnapshotRead? && !Registered(s, s.joining.init, s.joining.snapshot).overflowed
    requires forall i | 0 <= i < |s.joining.init.events| :: s.joining.init.events[i].symbol == s.joining.init.symbol
    ensures var t, events := Registered(s, s.joining.init, s.joining.snapshot),
      Newer(SortBySeq(s.joining.init.events), s.joining.snapshot);
      && Raw1(t) && t.aggregator.output == s.aggregator.output + events
      && OnSymbol(t.aggregator.output, y) == OnSymbol(s.aggregator.output, y) + if s.joining.init.symbol == y then
           events else []
  {
    var events := Newer(SortBySeq(s.joining.init.events), s.joining.snapshot);
    SortKeepsSymbol(s.joining.init.events, s.joining.init.symbol);
    NewerKeepsSymbol(SortBySeq(s.joining.init.events), s.joining.snapshot, s.joining.init.symbol);
    OnSymbolOfAll(events, s.joining.init.symbol);
    PushAllAppends(s.aggregator, events);
    OnSymbolOfAppend(s.aggregator.output, events, y);
    hide OnSymbol, PushAll, SortBySeq, Newer;
  }

  lemma OtherRegistered(s: Stream, y: Symbol)
    requires Raw1(s) && s.joining.SnapshotRead? && s.joining.init.symbol != y
      && SnapshotFor(s.joining.snapshot, s.joining.init.symbol)
    requires !Registered(s, s.joining.init, s.joining.snapshot).overflowed
    requires forall i | 0 <= i < |s.joining.init.events| :: s.joining.init.events[i].symbol == s.joining.init.symbol
    ensures SameView(s, Joined(s, s.joining.init, s.joining.snapshot), y)
    ensures OnSymbol(Joined(s, s.joining.init, s.joining.snapshot).aggregator.output, y) ==
      OnSymbol(s.aggregator.output, y)
  {
    var init, snapshot := s.joining.init, s.joining.snapshot;
    var t := Registered(s, init, snapshot);
    RegistrationAppends(s, y);
    assert SameView(s, t, y) by { hide DataOn, OnSymbol, PushAll, SortBySeq, Newer; }
    if snapshot.Some? {
      hide Registered, DataOn, OnSymbol, Offered, SameView, Raw1, Newer;
      var u := Offered(t, Snapshot(snapshot.value));
      assert SameView(s, u, y) by {
        assert Raw1(t);
        OfferIsOther(t, Snapshot(snapshot.value), y);
        ViewsCompose(s, t, u, y);
      }
      BaselinesOfOther(u, init.symbol, snapshot.value.seqNo, snapshot.value.bid, y);
      ViewsCompose(s, u, Joined(s, init, snapshot), y);
    }
  }

  lemma OtherJoined(fed: map<Symbol, seq<MarketEvent>>, published: set<Symbol>, s: Stream, y: Symbol,
                    coming: seq<MarketEvent>)
    requires StreamTrack(fed, published, s, y, coming) && s.joining.SnapshotRead? && s.joining.init.symbol != y
    requires !Joined(s, s.joining.init, s.joining.snapshot).overflowed
    ensures StreamTrack(fed, published, Joined(s, s.joining.init, s.joining.snapshot), y, coming)
  {
    hide DataOn, OnSymbol, Offered, PushAll, SortBySeq, Newer, SameView, OnTrack, NeverDecreases, ActiveOk, Untouched;
    OtherRegistered(s, y);
    TrackMoves(fed, published, s, Joined(s, s.joining.init, s.joining.snapshot), y, coming);
  }

  /** What the client is told when the subscription starts. */
  lemma ToldAtStart(first: Option<MarketEvent>, snapshot: Option<SnapshotData>)
    ensures Told(first, if snapshot.Some? then [Snapshot(snapshot.value)] else [], SeqOfSnapshot(snapshot))
  {
  }

  /** Where the new subscription stands. */
  lemma OwnRegistered(s: Stream, y: Symbol)
    requires Raw1(s) && Untouched(s, y) && s.joining.SnapshotRead? && s.joining.init.symbol == y
      && s.joining.init.filter == None
    requires SnapshotFor(s.joining.snapshot, y) && !Registered(s, s.joining.init, s.joining.snapshot).overflowed
    requires forall i | 0 <= i < |s.joining.init.events| :: s.joining.init.events[i].symbol == y
    ensures var t, snapshot := Joined(s, s.joining.init, s.joining.snapshot), s.joining.snapshot;
      && Raw1(t) && t.joining == NotJoining && y !in t.filters && !Awaits(t.dispatch, y) && y in t.subscriptions
      && Lookup(t.lastSeq, y) == SeqOfSnapshot(snapshot)
      && OnSymbol(t.aggregator.output, y) == Newer(SortBySeq(s.joining.init.events), snapshot)
      && DataOn(t.hist, y) == (if snapshot.Some? then [Snapshot(snapshot.value)] else [])
  {
    RegistrationAppends(s, y);
    hide PushAll, Newer, SortBySeq, DataOn, OnSymbol, Offered;
    var snapshot := s.joining.snapshot;
    if snapshot.Some? {
      DataOfOffer(Registered(s, s.joining.init, snapshot), Snapshot(snapshot.value), y);
    }
  }

  lemma OwnJoined(fed: map<Symbol, seq<MarketEvent>>, published: set<Symbol>, s: Stream, y: Symbol,
                  coming: seq<MarketEvent>)
    requires StreamTrack(fed, published, s, y, coming) && Joins(s.joining, y) && s.joining.SnapshotRead?
      && JoiningFed(fed, s.joining)
    requires !s.joining.init.overflowed && !Joined(s, s.joining.init, s.joining.snapshot).overflowed
      && y !in s.subscriptions
    ensures StreamTrack(fed, published, Joined(s, s.joining.init, s.joining.snapshot), y, coming)
  {
    var init, snapshot := s.joining.init, s.joining.snapshot;
    hide PublishedUpTo, FirstFed, Newer, SortBySeq, AllFed, Told, DataOn, OnSymbol, OnTrack, NeverDecreases, Offered,
      Untouched, Raw1;
    OwnRegistered(s, y);
    ReleaseTracks(FirstFed(fed, y), PublishedUpTo(fed, published, y), init.events, snapshot, coming);
    ToldAtStart(FirstFed(fed, y), snapshot);
    hide Joined;
  }

  /** Of `y`, only a subscription begun earlier is in progress or active. */
  predicate NothingBegun(s: Stream, t: Stream, y: Symbol) {
    && (y in t.subscriptions ==> y in s.subscriptions || Joins(s.joining, y))
    && (Joins(t.joining, y) ==> Joins(s.joining, y))
  }

  lemma ActivateTracks(fed: map<Symbol, seq<MarketEvent>>, published: set<Symbol>, s: Stream, y: Symbol,
                       coming: seq<MarketEvent>)
    requires StreamTrack(fed, published, s, y, coming) && JoiningFed(fed, s.joining) && !Activated(s).overflowed
    ensures StreamTrack(fed, published, Activated(s), y, coming) && NothingBegun(s, Activated(s), y)
  {
    hide PublishedUpTo, FirstFed, AllFed, OnTrack, Told, DataOn, OnSymbol, NeverDecreases, Offered, PushAll, SortBySeq,
      Newer;
    if s.joining.SnapshotRead? {
      if s.joining.init.overflowed {
        JoinFailureTracks(fed, published, s, y, coming, "subscription failed");
      } else if Joins(s.joining, y) {
        OwnJoined(fed, published, s, y, coming);
      } else {
        OtherJoined(fed, published, s, y, coming);
      }
    }
  }

  // ---- dispatch ----

  /** The head of what leads on is never a gap, and what follows it leads on from the new baseline. */
  lemma HeadIsNoGap(first: Option<MarketEvent>, upTo: Option<int>, last: Option<int>, x: MarketEvent,
                    rest: seq<MarketEvent>)
    requires OnTrack(first, upTo, last, [x] + rest)
    ensures Classify(last, x.seqNo, true) != Gap
    ensures OnTrack(first, upTo, Baseline(last, x.seqNo, true), rest)
    ensures last.None? ==> first == Some(x)
  {
    FollowHead(last, x, rest);
    FollowNeverGoesBack(Baseline(last, x.seqNo, true), rest);
  }

  lemma ToldNext(first: Option<MarketEvent>, told: seq<Message>, last: Option<int>, x: MarketEvent)
    requires Told(first, told, last) && Classify(last, x.seqNo, true) == Next && (last.None? ==> first == Some(x))
    ensures Told(first, told + [Incremental(x)], Some(x.seqNo))
  {
  }

  lemma AdvanceTracks(fed: map<Symbol, seq<MarketEvent>>, published: set<Symbol>, s: Stream, x: MarketEvent, y: Symbol,
                      coming: seq<MarketEvent>)
    requires Raw1(s) && NumberedLast(fed, y, Lookup(s.lastSeq, y)) && IsFed(fed, x) && x.symbol == y
    requires JoinOk(FirstFed(fed, y), PublishedUpTo(fed, published, y), s.joining, y, coming) && y in s.subscriptions
    requires !Joins(s.joining, y) && y !in s.filters && !Awaits(s.dispatch, y)
    requires OnTrack(FirstFed(fed, y), PublishedUpTo(fed, published, y), Some(x.seqNo),
      OnSymbol(s.aggregator.output, y) + coming)
    requires Told(FirstFed(fed, y), DataOn(s.hist, y), Lookup(s.lastSeq, y))
    requires Classify(Lookup(s.lastSeq, y), x.seqNo, true) == Next
      && (Lookup(s.lastSeq, y).None? ==> FirstFed(fed, y) == Some(x))
    ensures var t := Advanced(s.(lastSeq := s.lastSeq[y := x.seqNo]), x);
      StreamTrack(fed, published, t, y, coming) && NothingBegun(s, t, y)
  {
    var moved := s.(lastSeq := s.lastSeq[y := x.seqNo]);
    DataOfOffer(moved, Incremental(x), y);
    ToldNext(FirstFed(fed, y), DataOn(s.hist, y), Lookup(s.lastSeq, y), x);
    hide PublishedUpTo, FirstFed, OnTrack, Told, DataOn, OnSymbol, NeverDecreases, Offered;
  }

  lemma DispatchOwn(fed: map<Symbol, seq<MarketEvent>>, published: set<Symbol>, s: Stream, y: Symbol,
                    coming: seq<MarketEvent>)
    requires StreamTrack(fed, published, s, y, coming) && AllFed(fed, s.aggregator.output)
    requires s.dispatch.Idle? && s.aggregator.output != [] && s.aggregator.output[0].symbol == y
    ensures StreamTrack(fed, published, Dispatched(s), y, coming) && NothingBegun(s, Dispatched(s), y)
  {
    var first, upTo := FirstFed(fed, y), PublishedUpTo(fed, published, y);
    var x, rest, last := s.aggregator.output[0], s.aggregator.output[1..], Lookup(s.lastSeq, y);
    assert s.aggregator.output == [x] + rest;
    OnSymbolHead(x, rest, y);
    var next := OnSymbol(rest, y) + coming;
    assert OnSymbol(s.aggregator.output, y) + coming == [x] + next;
    assert IsFed(fed, x);
    hide PublishedUpTo, FirstFed, OnTrack, Told, DataOn, OnSymbol, NeverDecreases, Advanced, AllFed, IsFed;
    HeadIsNoGap(first, upTo, last, x, next);
    if Classify(last, x.seqNo, true) == Next {
      AdvanceTracks(fed, published, s.(aggregator := s.aggregator.(output := rest)), x, y, coming);
    }
  }

  lemma OtherAdvances(s: Stream, x: MarketEvent, y: Symbol)
    requires Raw1(s) && x.symbol != y
    ensures var t := Advanced(s.(lastSeq := s.lastSeq[x.symbol := x.seqNo]), x);
      && SameView(s, t, y) && t == s.(lastSeq := t.lastSeq, lastPrice := t.lastPrice, out := t.out, hist := t.hist)
  {
    hide DataOn, Offered, ShouldDeliver, Raw1;
    var moved := s.(lastSeq := s.lastSeq[x.symbol := x.seqNo]);
    BaselinesOfOther(s, x.symbol, x.seqNo, x.bid, y);
    var offered := Offered(moved, Incremental(x));
    assert SameView(s, offered, y) by {
      assert Raw1(moved);
      OfferIsOther(moved, Incremental(x), y);
      ViewsCompose(s, moved, offered, y);
    }
    BaselinesOfOther(offered, x.symbol, x.seqNo, x.bid, y);
    var priced := offered.(lastPrice := offered.lastPrice[x.symbol := x.bid]);
    ViewsCompose(s, offered, priced, y);
    hide SameView;
  }

  lemma OtherDispatched(s: Stream, y: Symbol)
    requires Raw1(s) && s.dispatch.Idle? && s.aggregator.output != [] && s.aggregator.output[0].symbol != y
    ensures SameView(s, Dispatched(s), y) && NothingBegun(s, Dispatched(s), y)
    ensures Dispatched(s).aggregator == s.aggregator.(output := s.aggregator.output[1..])
      && Dispatched(s).joining == s.joining
  {
    var x, rest := s.aggregator.output[0], s.(aggregator := s.aggregator.(output := s.aggregator.output[1..]));
    hide DataOn, Classify;
    assert SameView(s, rest, y);
    OtherAdvances(rest, x, y);
    hide Advanced, SameView;
    if Classify(Lookup(s.lastSeq, x.symbol), x.seqNo, true) == Next {
      ViewsCompose(s, rest, Dispatched(s), y);
    } else if Classify(Lookup(s.lastSeq, x.symbol), x.seqNo, true) == Gap {
      assert SameView(s, rest.(dispatch := Fetching(x)), y) by { AwaitingOther(s, rest, x, y); }
    }
  }

  lemma AwaitingOther(s: Stream, t: Stream, x: MarketEvent, y: Symbol)
    requires SameView(s, t, y) && x.symbol != y
    ensures SameView(s, t.(dispatch := Fetching(x)), y)
  {
    hide DataOn;
  }

  lemma DispatchOther(fed: map<Symbol, seq<MarketEvent>>, published: set<Symbol>, s: Stream, y: Symbol,
                      coming: seq<MarketEvent>)
    requires StreamTrack(fed, published, s, y, coming)
    requires s.dispatch.Idle? && s.aggregator.output != [] && s.aggregator.output[0].symbol != y
    ensures StreamTrack(fed, published, Dispatched(s), y, coming) && NothingBegun(s, Dispatched(s), y)
  {
    var x, rest := s.aggregator.output[0], s.aggregator.output[1..];
    assert s.aggregator.output == [x] + rest;
    OnSymbolHead(x, rest, y);
    assert OnSymbol(s.aggregator.output, y) == OnSymbol(rest, y);
    hide PublishedUpTo, FirstFed, JoinOk, ActiveOk, Untouched, OnSymbol, Dispatched, SameView;
    OtherDispatched(s, y);
    TrackMoves(fed, published, s, Dispatched(s), y, coming);
  }

  lemma RecoverTracks(fed: map<Symbol, seq<MarketEvent>>, published: set<Symbol>, s: Stream, y: Symbol,
                      coming: seq<MarketEvent>)
    requires StreamTrack(fed, published, s, y, coming) && DispatchFed(fed, s.dispatch)
    ensures StreamTrack(fed, published, Recovered(s), y, coming) && NothingBegun(s, Recovered(s), y)
  {
    hide PublishedUpTo, FirstFed, JoinOk, OnTrack, Told, DataOn, OnSymbol, Offered, IsFedSnapshot;
    if s.dispatch.Fetched? {
      var z, d, done := s.dispatch.event.symbol, s.dispatch.snapshot.value, s.(dispatch := Idle);
      assert z != y;
      assert SameView(s, done, y);
      var offered := Offered(done, Snapshot(d));
      OfferIsOther(done, Snapshot(d), y);
      BaselinesOfOther(offered, z, d.seqNo, d.bid, y);
      hide SameView, Raw1, ActiveOk, Untouched;
      ViewsCompose(s, done, offered, y);
      ViewsCompose(s, offered, offered.(lastSeq := offered.lastSeq[z := d.seqNo],
        lastPrice := offered.lastPrice[z := d.bid]), y);
      TrackMoves(fed, published, s, Recovered(s), y, coming);
    }
  }

  // ---- every step keeps an undisturbed symbol on track ----

  predicate Quiet(step: Streams.Step, y: Symbol) {
    match step
    case FlushWindow => true
    case FetchAnswers(_) => true
    case FetchFails => true
    case WriterTakes => true
    case Notify(_) => true
    case Leave(z) => z != y
    case _ => false
  }

  lemma QuietView(s: Stream, step: Streams.Step, y: Symbol)
    requires Raw1(s) && Quiet(step, y)
    ensures SameView(s, Step1(s, step), y) && NothingBegun(s, Step1(s, step), y)
    ensures Step1(s, step).aggregator == s.aggregator && Step1(s, step).joining == s.joining
  {
    hide DataOn, Offered;
    match step
    case Notify(text) => OfferIsOther(s, Notice(text), y);
    case _ =>
  }

  lemma QuietStepTracks(fed: map<Symbol, seq<MarketEvent>>, published: set<Symbol>, s: Stream, step: Streams.Step,
                        y: Symbol, coming: seq<MarketEvent>)
    requires StreamTrack(fed, published, s, y, coming) && Quiet(step, y)
    ensures StreamTrack(fed, published, Step1(s, step), y, coming) && NothingBegun(s, Step1(s, step), y)
  {
    hide PublishedUpTo, FirstFed, JoinOk, ActiveOk, Untouched, OnSymbol, Step1, SameView, Quiet;
    QuietView(s, step, y);
    TrackMoves(fed, published, s, Step1(s, step), y, coming);
  }

  lemma BeginOk(first: Option<MarketEvent>, upTo: Option<int>, z: Symbol, filter: Option<Filter>, y: Symbol,
                coming: seq<MarketEvent>)
    requires NeverDecreases(coming) && (z == y ==> filter == None)
    ensures JoinOk(first, upTo, Buffering(Initialization(z, filter, [], false)), y, coming)
  {
    var none: seq<MarketEvent> := [];
    assert none + coming == coming;
    hide OnTrack, NeverDecreases;
  }

  lemma JoinTracks(w: World, z: Symbol, filter: Option<Filter>, y: Symbol)
    requires Track(w, y) && w.stream.joining.NotJoining?
    requires z == y ==> y !in w.asked && filter == None && y in w.listening
    ensures Track(ClientDid(w, Streams.Join(z, filter)), y)
  {
    hide PublishedUpTo, FirstFed, OnTrack, Told, DataOn, OnSymbol, NeverDecreases, JoinOk;
    BeginOk(FirstFed(w.fed, y), PublishedUpTo(w.fed, w.published, y), z, filter, y, OnSymbol(w.channel, y));
  }

  lemma ReadOtherTracks(w: World, y: Symbol)
    requires Track(w, y) && w.stream.joining.Buffering? && w.stream.joining.init.symbol != y
    requires SnapshotFor(SnapshotNow(w, w.stream.joining.init.symbol), w.stream.joining.init.symbol)
    ensures Track(ClientDid(w, Streams.ReadSnapshot(None)), y)
  {
    hide PublishedUpTo, FirstFed, OnTrack, Told, DataOn, OnSymbol, NeverDecreases, SnapshotNow;
  }

  lemma SnapshotNowIsFor(w: World, y: Symbol)
    requires FedOk(w.fed)
    ensures SnapshotFor(SnapshotNow(w, y), y)
  {
  }

  lemma DispatchTracks(fed: map<Symbol, seq<MarketEvent>>, published: set<Symbol>, s: Stream, y: Symbol,
                       coming: seq<MarketEvent>)
    requires StreamTrack(fed, published, s, y, coming) && AllFed(fed, s.aggregator.output)
    ensures StreamTrack(fed, published, Dispatched(s), y, coming) && NothingBegun(s, Dispatched(s), y)
  {
    if !s.dispatch.Idle? || s.aggregator.output == [] {
      assert Dispatched(s) == s;
    } else if s.aggregator.output[0].symbol == y {
      DispatchOwn(fed, published, s, y, coming);
    } else {
      DispatchOther(fed, published, s, y, coming);
    }
    hide StreamTrack, Dispatched, AllFed;
  }

  lemma ClientTracks(w: World, step: Streams.Step, y: Symbol)
    requires Inv(w) && Track(w, y)
    requires y !in ClientDid(w, step).disturbed && !ClientDid(w, step).stream.overflowed
    ensures Track(ClientDid(w, step), y)
  {
    var s, coming := w.stream, OnSymbol(w.channel, y);
    hide StreamTrack, OnSymbol, NeverDecreases, SnapshotNow, Activated, JoinFailed, Dispatched, Recovered, Left;
    hide WriterTook, WindowFlushed, Offered, AllFed, HistFed, FedOk;
    match step
    case Deliver(_) =>
    case Join(z, filter) =>
      if s.joining.NotJoining? {
        JoinTracks(w, z, filter, y);
      }
    case ReadSnapshot(_) =>
      if s.joining.Buffering? {
        SnapshotNowIsFor(w, s.joining.init.symbol);
        if s.joining.init.symbol == y { ReadTracks(w, y); } else { ReadOtherTracks(w, y); }
      }
    case JoinFails(reason) => JoinFailureTracks(w.fed, w.published, s, y, coming, reason);
    case Activate => ActivateTracks(w.fed, w.published, s, y, coming);
    case DispatchNext => DispatchTracks(w.fed, w.published, s, y, coming);
    case Recover => RecoverTracks(w.fed, w.published, s, y, coming);
    case FetchAnswers(_) =>
      if s.dispatch.Fetching? {
        QuietStepTracks(w.fed, w.published, s, Streams.FetchAnswers(SnapshotNow(w, s.dispatch.event.symbol)), y,
          coming);
      }
    case _ => QuietStepTracks(w.fed, w.published, s, step, y, coming);
  }

  lemma OnSymbolWithout(a: seq<MarketEvent>, b: seq<MarketEvent>, c: seq<MarketEvent>, y: Symbol)
    requires OnSymbol(b, y) == []
    ensures OnSymbol(a + b + c, y) == OnSymbol(a + c, y)
  {
    OnSymbolOfAppend(a + b, c, y);
    OnSymbolOfAppend(a, b, y);
    OnSymbolOfAppend(a, c, y);
  }

  lemma OnSymbolOfTwo(a: MarketEvent, b: MarketEvent, y: Symbol)
    requires a.symbol != y && b.symbol != y
    ensures OnSymbol([a, b], y) == []
  {
    assert [a, b] == [a] + [b];
    OnSymbolOfAppend([a], [b], y);
    OnSymbolOfOne(a, y);
    OnSymbolOfOne(b, y);
  }

  lemma LossElsewhere(c: seq<MarketEvent>, i: nat, y: Symbol)
    requires i < |c| && c[i].symbol != y
    ensures OnSymbol(c[..i] + c[i + 1..], y) == OnSymbol(c, y)
  {
    assert c == c[..i] + [c[i]] + c[i + 1..];
    OnSymbolOfOne(c[i], y);
    hide OnSymbol;
    OnSymbolWithout(c[..i], [c[i]], c[i + 1..], y);
  }

  lemma SwapElsewhere(c: seq<MarketEvent>, i: nat, y: Symbol)
    requires i + 1 < |c| && c[i].symbol != y && c[i + 1].symbol != y
    ensures OnSymbol(c[i := c[i + 1]][i + 1 := c[i]], y) == OnSymbol(c, y)
  {
    hide OnSymbol;
    var a, b := c[i], c[i + 1];
    assert c == c[..i] + [a, b] + c[i + 2..];
    assert c[i := b][i + 1 := a] == c[..i] + [b, a] + c[i + 2..];
    OnSymbolOfTwo(a, b, y);
    OnSymbolOfTwo(b, a, y);
    OnSymbolWithout(c[..i], [a, b], c[i + 2..], y);
    OnSymbolWithout(c[..i], [b, a], c[i + 2..], y);
  }

  /** Disturbances of other symbols leave what is coming as it was. */
  lemma DisturbanceElsewhere(w: World, step: WorldStep, y: Symbol)
    requires step.Lose? || step.Duplicate? || step.Swap?
    requires y !in WorldStep1(w, step).disturbed
    ensures OnSymbol(WorldStep1(w, step).channel, y) == OnSymbol(w.channel, y)
  {
    hide OnSymbol;
    match step
    case Lose(i) =>
      if i < |w.channel| {
        LossElsewhere(w.channel, i, y);
      }
    case Duplicate(i) =>
      if i < |w.channel| {
        OnSymbolOfOne(w.channel[i], y);
        OnSymbolOfAppend(w.channel, [w.channel[i]], y);
      }
    case Swap(i) =>
      if i + 1 < |w.channel| {
        SwapElsewhere(w.channel, i, y);
      }
  }

  lemma PublishedElsewhere(fed: map<Symbol, seq<MarketEvent>>, published: set<Symbol>, s: Stream, z: Symbol, y: Symbol,
                           coming: seq<MarketEvent>)
    requires StreamTrack(fed, published, s, y, coming) && z != y
    ensures StreamTrack(fed, published + {z}, s, y, coming)
  {
    assert PublishedUpTo(fed, published + {z}, y) == PublishedUpTo(fed, published, y);
    hide JoinOk, ActiveOk, Untouched, FirstFed, NumberedLast, Raw1;
  }

  lemma PublishOtherTracks(w: World, z: Symbol, y: Symbol)
    requires Inv(w) && Track(w, y) && z != y
    ensures Track(PublishedCurrent(w, z), y)
  {
    if History(w, z) != [] {
      NewestIsFed(w, z);
      var e := History(w, z)[|History(w, z)| - 1];
      assert e.symbol == z;
      hide OnSymbol, NeverDecreases, StreamTrack, Inv;
      OnSymbolOfAppend(w.channel, [e], y);
      OnSymbolOfOne(e, y);
      PublishedElsewhere(w.fed, w.published, w.stream, z, y, OnSymbol(w.channel, y));
    }
  }

  lemma PublishOwnTracks(w: World, y: Symbol)
    requires Inv(w) && Track(w, y)
    ensures Track(PublishedCurrent(w, y), y)
  {
    if History(w, y) != [] {
      NewestIsFed(w, y);
      var e, coming := History(w, y)[|History(w, y)| - 1], OnSymbol(w.channel, y);
      OnSymbolFed(w.fed, w.channel, y);
      PublishTracks(w.fed, w.published, w.stream, y, coming);
      OnSymbolOfAppend(w.channel, [e], y);
      OnSymbolOfOne(e, y);
      if y !in w.listening {
        NobodyListens(w.fed, w.published, w.stream, y, coming);
      }
    }
    hide OnSymbol, NeverDecreases, StreamTrack, Inv;
  }

  /** Before the first subscribe nothing depends on what was published. */
  lemma NobodyListens(fed: map<Symbol, seq<MarketEvent>>, published: set<Symbol>, s: Stream, y: Symbol,
                      coming: seq<MarketEvent>)
    requires StreamTrack(fed, published, s, y, coming) && y !in s.subscriptions && !Joins(s.joining, y)
    ensures StreamTrack(fed, published + {y}, s, y, coming)
  {
    hide PublishedUpTo, FirstFed, OnTrack;
  }

  /** Of a symbol nobody asked for nothing is missed with the connection. */
  lemma CutTracks(w: World, y: Symbol)
    requires Track(w, y) && y !in w.asked
    ensures Track(WorldStep1(w, Cut), y)
  {
    hide PublishedUpTo, FirstFed, OnTrack;
  }

  lemma StepTracks(w: World, step: WorldStep, y: Symbol)
    requires Inv(w) && Track(w, y)
    requires y !in WorldStep1(w, step).disturbed && !WorldStep1(w, step).stream.overflowed
    ensures Track(WorldStep1(w, step), y)
  {
    hide Inv, StreamTrack, OnSymbol, NeverDecreases;
    match step
    case Update(e) => UpdateTracks(w, e, y);
    case PublishCurrent(z) => if z == y { PublishOwnTracks(w, y); } else { PublishOtherTracks(w, z, y); }
    case Arrive => if w.channel != [] { ArriveTracks(w, y); }
    case Client(s) => ClientTracks(w, s, y);
    case Listen(_) =>
    case Cut => if y !in w.asked { CutTracks(w, y); }
    case _ => DisturbanceElsewhere(w, step, y);
  }

  lemma StepDisturbs(w: World, step: WorldStep)
    ensures w.disturbed <= WorldStep1(w, step).disturbed
  {
  }

  lemma ActivationOverflows(s: Stream)
    ensures s.overflowed ==> Activated(s).overflowed
  {
    hide Offered, SortBySeq, Newer, PushAll, Accepts;
  }

  lemma DispatchOverflows(s: Stream)
    ensures Dispatched(s).overflowed == s.overflowed
  {
    hide Advanced, Classify;
  }

  lemma RecoveryOverflows(s: Stream)
    ensures Recovered(s).overflowed == s.overflowed
  {
    hide Offered, Accepts;
  }

  lemma StreamOverflows(s: Stream, step: Streams.Step)
    ensures s.overflowed ==> Step1(s, step).overflowed
  {
    hide Activated, Dispatched, Recovered, Flushed, Pushed, Offered, NotedIn, SnapshotFor;
    ActivationOverflows(s);
    DispatchOverflows(s);
    RecoveryOverflows(s);
  }

  lemma StepOverflows(w: World, step: WorldStep)
    ensures w.stream.overflowed ==> WorldStep1(w, step).stream.overflowed
  {
    hide Step1, SnapshotNow;
    match step
    case Arrive =>
      if w.channel != [] {
        StreamOverflows(w.stream, Streams.Deliver(w.channel[0]));
        assert Step1(w.stream, Streams.Deliver(w.channel[0])) == Delivered(w.stream, w.channel[0]) by {
          DeliverIsAStep(w.stream, w.channel[0]);
        }
      }
    case Client(s) =>
      StreamOverflows(w.stream, s);
      if s.ReadSnapshot? && w.stream.joining.Buffering? {
        StreamOverflows(w.stream, Streams.ReadSnapshot(SnapshotNow(w, w.stream.joining.init.symbol)));
      }
      if s.FetchAnswers? && w.stream.dispatch.Fetching? {
        StreamOverflows(w.stream, Streams.FetchAnswers(SnapshotNow(w, w.stream.dispatch.event.symbol)));
      }
    case _ =>
  }

  lemma DeliverIsAStep(s: Stream, e: MarketEvent)
    ensures Step1(s, Streams.Deliver(e)) == Delivered(s, e)
  {
  }

  lemma {:induction false} RunTracks(steps: seq<WorldStep>, y: Symbol)
    ensures var w := WorldRun(Launched(Raw, DropOldestPolicy), steps);
      y !in w.disturbed && !w.stream.overflowed ==> Track(w, y)
  {
    if steps == [] {
      var none: seq<MarketEvent> := [];
      assert none + none == none;
    } else {
      hide Track, Inv, WorldStep1;
      var before, step := WorldRun(Launched(Raw, DropOldestPolicy), steps[..|steps| - 1]), steps[|steps| - 1];
      RunTracks(steps[..|steps| - 1], y);
      RunKeeps(Raw, DropOldestPolicy, steps[..|steps| - 1]);
      StepDisturbs(before, step);
      StepOverflows(before, step);
      if y !in WorldStep1(before, step).disturbed && !WorldStep1(before, step).stream.overflowed {
        StepTracks(before, step, y);
      }
    }
  }

  // ---- the hand-off is gapless ----

  lemma ReachableTracks(w: World, y: Symbol)
    requires Reachable(Raw, DropOldestPolicy, w) && y !in w.disturbed && !w.stream.overflowed
    ensures Inv(w) && Track(w, y)
  {
    hide Inv, Track;
    var steps :| w == WorldRun(Launched(Raw, DropOldestPolicy), steps);
    RunTracks(steps, y);
    RunKeeps(Raw, DropOldestPolicy, steps);
  }

  /** In RAW mode with the queue dropping its oldest, a client's first unfiltered subscription to `y`,
      while `y` is not disturbed and the aggregator does not overflow: whatever the interleaving, the data
      messages of `y` are one snapshot N (or, if there was none to read, the very first event of the feed)
      and then exactly N+1, N+2, ..., each with the engine's own content, ending at the baseline; and the
      dispatch loop is never in the recovery of a gap of `y`. */
  lemma GaplessHandOff(w: World, y: Symbol)
    requires Reachable(Raw, DropOldestPolicy, w) && y !in w.disturbed && !w.stream.overflowed
    ensures var told := DataOn(w.stream.hist, y);
      && (forall i | 0 <= i < |told| :: told[i].IsData() && told[i].SymbolOf() == y && IsFedMessage(w.fed, told[i]))
      && (forall i | 0 < i < |told| :: told[i].Incremental? && told[i].SeqOf() == told[0].SeqOf() + i)
      && (told != [] && told[0].Incremental? ==> y in w.fed && w.fed[y] != [] && told[0].event == w.fed[y][0])
      && Lookup(w.stream.lastSeq, y) == (if told == [] then None else Some(told[|told| - 1].SeqOf()))
    ensures !Awaits(w.stream.dispatch, y)
  {
    ReachableTracks(w, y);
    DataFed(w.fed, w.stream.hist, y);
    hide OnTrack, HistFed, AllFed, NeverDecreases, JoinOk, OnSymbol, DataOn, AskedOk, IsFedMessage, PublishedUpTo;
  }

  /** No gap is ever classified: whichever event of `y` the dispatch loop takes next. */
  lemma NeverClassifiedGap(w: World, y: Symbol)
    requires Reachable(Raw, DropOldestPolicy, w) && y !in w.disturbed && !w.stream.overflowed
    requires w.stream.aggregator.output != [] && w.stream.aggregator.output[0].symbol == y
    ensures Classify(Lookup(w.stream.lastSeq, y), w.stream.aggregator.output[0].seqNo, true) != Gap
  {
    ReachableTracks(w, y);
    var x, rest := w.stream.aggregator.output[0], w.stream.aggregator.output[1..];
    var coming := OnSymbol(w.channel, y);
    assert w.stream.aggregator.output == [x] + rest;
    OnSymbolHead(x, rest, y);
    assert OnSymbol(w.stream.aggregator.output, y) + coming == [x] + (OnSymbol(rest, y) + coming);
    hide Inv, JoinOk, NeverDecreases, Told, OnTrack, PublishedUpTo, FirstFed, OnSymbol, DataOn, AskedOk, NumberedLast,
      Reachable;
    HeadIsNoGap(FirstFed(w.fed, y), PublishedUpTo(w.fed, w.published, y), Lookup(w.stream.lastSeq, y), x,
      OnSymbol(rest, y) + coming);
  }

  /** And nothing is missing: once a subscribed client has nothing of `y` left on its way, it was told
      everything up to the newest event, if that one was published. */
  lemma HandOffIsComplete(w: World, y: Symbol)
    requires Reachable(Raw, DropOldestPolicy, w) && y !in w.disturbed && !w.stream.overflowed
    requires y in w.stream.subscriptions && y in w.published && History(w, y) != []
    requires OnSymbol(w.channel, y) == [] && OnSymbol(w.stream.aggregator.output, y) == []
    ensures var told := DataOn(w.stream.hist, y);
      told != [] && told[|told| - 1].IsData() && told[|told| - 1].SeqOf() == History(w, y)[|History(w, y)| - 1].seqNo
  {
    ReachableTracks(w, y);
    var none: seq<MarketEvent> := [];
    assert none + none == none;
    hide HistFed, AllFed, NeverDecreases, JoinOk, OnSymbol, DataOn, AskedOk;
  }

  // ---- what reaches the socket ----

  /** The data messages of `y` among what the writer took. */
  function SentOn(hist: seq<Entry>, taken: seq<nat>, y: Symbol): seq<Message>
    requires forall i | 0 <= i < |taken| :: taken[i] < |hist|
  {
    if taken == [] then []
    else
      var front, m := SentOn(hist, taken[..|taken| - 1], y), hist[taken[|taken| - 1]].msg;
      if m.IsData() && m.SymbolOf() == y then front + [m] else front
  }

  lemma {:induction false} SentIsEnqueued(hist: seq<Entry>, taken: seq<nat>, y: Symbol)
    requires |taken| <= |hist| && forall i | 0 <= i < |taken| :: taken[i] == i
    ensures SentOn(hist, taken, y) == DataOn(hist[..|taken|], y)
  {
    if taken != [] {
      var n := |taken| - 1;
      SentIsEnqueued(hist, taken[..n], y);
      assert hist[..n + 1][..n] == hist[..n] && hist[..n + 1][n] == hist[taken[n]];
    }
  }

  lemma {:induction false} DataOfPrefix(hist: seq<Entry>, n: nat, y: Symbol)
    requires n <= |hist|
    ensures DataOn(hist[..n], y) <= DataOn(hist, y)
  {
    if n == |hist| {
      assert hist[..n] == hist;
    } else {
      var front := hist[..|hist| - 1];
      DataOfPrefix(front, n, y);
      assert front[..n] == hist[..n];
    }
  }

  lemma {:induction false} ClientIsAStream(mode: Mode, policy: Policy, steps: seq<WorldStep>)
    ensures StreamGuarantees.Reachable(mode, policy, WorldRun(Launched(mode, policy), steps).stream)
  {
    if steps == [] {
      assert Streams.Run(Connected(mode, policy), []) == Connected(mode, policy);
    } else {
      var w, step := WorldRun(Launched(mode, policy), steps[..|steps| - 1]), steps[|steps| - 1];
      ClientIsAStream(mode, policy, steps[..|steps| - 1]);
      hide StreamGuarantees.Reachable;
      WorldStepIsAStreamStep(mode, policy, w, step);
    }
  }

  lemma StreamReaches(mode: Mode, policy: Policy, s: Stream, step: Streams.Step)
    requires StreamGuarantees.Reachable(mode, policy, s)
    ensures StreamGuarantees.Reachable(mode, policy, Step1(s, step))
  {
    hide Step1;
    var steps :| s == Streams.Run(Connected(mode, policy), steps);
    assert (steps + [step])[..|steps + [step]| - 1] == steps;
    assert Step1(s, step) == Streams.Run(Connected(mode, policy), steps + [step]);
  }

  /** Whatever the world does, the client's stream takes one of its own steps or none. */
  lemma WorldStepIsAStreamStep(mode: Mode, policy: Policy, w: World, step: WorldStep)
    requires StreamGuarantees.Reachable(mode, policy, w.stream)
    ensures StreamGuarantees.Reachable(mode, policy, WorldStep1(w, step).stream)
  {
    hide StreamGuarantees.Reachable, Step1, SnapshotNow;
    match step
    case Arrive =>
      if w.channel != [] {
        StreamReaches(mode, policy, w.stream, Streams.Deliver(w.channel[0]));
        DeliverIsAStep(w.stream, w.channel[0]);
      }
    case Client(s) =>
      StreamReaches(mode, policy, w.stream, s);
      if s.ReadSnapshot? && w.stream.joining.Buffering? {
        StreamReaches(mode, policy, w.stream, Streams.ReadSnapshot(SnapshotNow(w, w.stream.joining.init.symbol)));
      }
      if s.FetchAnswers? && w.stream.dispatch.Fetching? {
        StreamReaches(mode, policy, w.stream, Streams.FetchAnswers(SnapshotNow(w, w.stream.dispatch.event.symbol)));
      }
    case _ =>
  }

  /** The socket itself sees N, N+1, ...: as long as the outbound queue dropped nothing, what the writer took
      of `y` is a prefix of what was enqueued of it, gapless like it. */
  lemma GaplessToTheSocket(w: World, y: Symbol)
    requires Reachable(Raw, DropOldestPolicy, w) && y !in w.disturbed && !w.stream.overflowed
      && w.stream.out.dropped == 0
    ensures forall i | 0 <= i < |w.stream.taken| :: w.stream.taken[i] < |w.stream.hist|
    ensures var sent := SentOn(w.stream.hist, w.stream.taken, y);
      && sent <= DataOn(w.stream.hist, y)
      && (forall i | 0 <= i < |sent| :: sent[i].IsData() && sent[i].SymbolOf() == y && IsFedMessage(w.fed, sent[i]))
      && (forall i | 0 < i < |sent| :: sent[i].Incremental? && sent[i].SeqOf() == sent[0].SeqOf() + i)
      && (sent != [] && sent[0].Incremental? ==> History(w, y) != [] && sent[0].event == History(w, y)[0])
  {
    var s := w.stream;
    var steps :| w == WorldRun(Launched(Raw, DropOldestPolicy), steps);
    hide WorldRun;
    ClientIsAStream(Raw, DropOldestPolicy, steps);
    hide StreamGuarantees.Reachable, Reachable;
    forall i | 0 <= i < |s.taken| ensures s.taken[i] == i && |s.taken| <= |s.hist| {
      StreamGuarantees.TakenIsPrefix(Raw, DropOldestPolicy, s, i);
    }
    assert s.taken != [] ==> s.taken[0] == 0;
    SentIsEnqueued(s.hist, s.taken, y);
    DataOfPrefix(s.hist, |s.taken|, y);
    GaplessHandOff(w, y);
    hide SentOn, DataOn, IsFedMessage;
  }
}
