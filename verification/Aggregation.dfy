/** The per-client aggregation buffer: RAW passes every event on, aggregated mode keeps the latest event
    per symbol and passes those on once per window. */
module Aggregation {
  import opened Events
  import opened Sequencing
  import opened DropOldest

  const OUTPUT_MAX_SIZE := 1000

  datatype Mode = Raw | Agg

  /** `window` is the per-symbol buffer in insertion order; `output` the bounded queue to the dispatcher. */
  datatype Aggregator = Aggregator(mode: Mode, window: seq<MarketEvent>, output: seq<MarketEvent>)

  /** Dictionary assignment: a symbol already present keeps its place. */
  function Buffered(window: seq<MarketEvent>, e: MarketEvent): seq<MarketEvent> {
    if window == [] then [e]
    else if window[0].symbol == e.symbol then [e] + window[1..]
    else [window[0]] + Buffered(window[1..], e)
  }

  function PutAll(output: seq<MarketEvent>, events: seq<MarketEvent>): seq<MarketEvent> {
    if events == [] then output
    else PutLatest(PutAll(output, events[..|events| - 1]), events[|events| - 1], OUTPUT_MAX_SIZE)
  }

  function Pushed(a: Aggregator, e: MarketEvent): (after: Aggregator)
    ensures after.mode == a.mode
  {
    if a.mode.Raw? then a.(output := PutLatest(a.output, e, OUTPUT_MAX_SIZE))
    else a.(window := Buffered(a.window, e))
  }

  function Flushed(a: Aggregator): Aggregator {
    if a.mode.Raw? then a else a.(output := PutAll(a.output, a.window), window := [])
  }

  class AggregationBuffer {
    const mode: Mode
    var buffer: seq<MarketEvent>
    var output: seq<MarketEvent>

    function View(): Aggregator
      reads this
    {
      Aggregator(mode, buffer, output)
    }

    constructor (mode: Mode)
      ensures View() == Aggregator(mode, [], [])
    {
      this.mode, buffer, output := mode, [], [];
    }

    method Push(e: MarketEvent)
      modifies this
      ensures View() == Pushed(old(View()), e)
    {
      if mode == Raw {
        PutLatestEvent(e);
      } else {
        Assign(e);
      }
    }

    method Assign(e: MarketEvent)
      modifies this`buffer
      ensures buffer == Buffered(old(buffer), e)
    {
      var i := 0;
      while i < |buffer| && buffer[i].symbol != e.symbol
        invariant 0 <= i <= |buffer|
        invariant Buffered(buffer, e) == buffer[..i] + Buffered(buffer[i..], e)
      {
        assert buffer[i..][1..] == buffer[i + 1..];
        i := i + 1;
      }
      if i < |buffer| {
        buffer := buffer[i := e];
      } else {
        buffer := buffer + [e];
      }
    }

    method PutLatestEvent(e: MarketEvent)
      modifies this`output
      ensures output == PutLatest(old(output), e, OUTPUT_MAX_SIZE)
    {
      if |output| < OUTPUT_MAX_SIZE {
        output := output + [e];
      } else {
        output := output[1..];
        output := output + [e];
      }
    }

    /** The body of the flush loop; it runs only in aggregated mode. */
    method Flush()
      modifies this
      ensures View() == Flushed(old(View()))
    {
      if mode != Raw && buffer != [] {
        for i := 0 to |buffer|
          invariant buffer == old(buffer) && output == PutAll(old(output), buffer[..i])
        {
          assert buffer[..i + 1][..i] == buffer[..i];
          PutLatestEvent(buffer[i]);
        }
        assert buffer[..|buffer|] == buffer;
        buffer := [];
      }
    }

    method Get() returns (e: Option<MarketEvent>)
      modifies this`output
      ensures old(output) == [] ==> e == None && output == []
      ensures old(output) != [] ==> e == Some(old(output)[0]) && output == old(output)[1..]
    {
      if output == [] {
        return None;
      }
      e := Some(output[0]);
      output := output[1..];
    }
  }

  // ---- what aggregation means ----

  datatype Op = Push(event: MarketEvent) | Flush | Get

  /** A buffer in aggregated mode, what was taken from it, and whether its output queue ever overflowed. */
  datatype AggRun = AggRun(aggregator: Aggregator, got: seq<MarketEvent>, overflowed: bool)

  function Apply(r: AggRun, op: Op): AggRun {
    match op
    case Push(e) => r.(aggregator := Pushed(r.aggregator, e))
    case Flush =>
      AggRun(Flushed(r.aggregator), r.got, r.overflowed
        || OUTPUT_MAX_SIZE < |r.aggregator.output| + |r.aggregator.window|)
    case Get =>
      if r.aggregator.output == [] then r
      else r.(aggregator := r.aggregator.(output := r.aggregator.output[1..]), got := r.got + [r.aggregator.output[0]])
  }

  function Run(ops: seq<Op>): AggRun {
    if ops == [] then AggRun(Aggregator(Agg, [], []), [], false) else Apply(Run(ops[..|ops| - 1]), ops[|ops| - 1])
  }

  /** The pushes between flushes: the windows already closed, and the one still open. */
  function ClosedWindows(ops: seq<Op>): seq<seq<MarketEvent>> {
    if ops == [] then []
    else
      var front := ops[..|ops| - 1];
      if ops[|ops| - 1].Flush? then ClosedWindows(front) + [OpenWindow(front)] else ClosedWindows(front)
  }

  function OpenWindow(ops: seq<Op>): seq<MarketEvent> {
    if ops == [] then []
    else
      var front, op := OpenWindow(ops[..|ops| - 1]), ops[|ops| - 1];
      match op
      case Push(e) => front + [e]
      case Flush => []
      case Get => front
  }

  function Pushes(ops: seq<Op>): seq<MarketEvent> {
    if ops == [] then []
    else
      var front, op := Pushes(ops[..|ops| - 1]), ops[|ops| - 1];
      if op.Push? then front + [op.event] else front
  }

  /** The last event of `y` in a window, if the window has one. */
  function LastOn(window: seq<MarketEvent>, y: Symbol): seq<MarketEvent> {
    var on := OnSymbol(window, y);
    if on == [] then [] else [on[|on| - 1]]
  }

  function LastPerWindow(windows: seq<seq<MarketEvent>>, y: Symbol): seq<MarketEvent> {
    if windows == [] then []
    else LastPerWindow(windows[..|windows| - 1], y) + LastOn(windows[|windows| - 1], y)
  }

  lemma {:induction false} BufferedReplaces(window: seq<MarketEvent>, e: MarketEvent, y: Symbol)
    requires forall other :: |OnSymbol(window, other)| <= 1
    ensures OnSymbol(Buffered(window, e), y) == if y == e.symbol then [e] else OnSymbol(window, y)
  {
    OnSymbolOfOne(e, y);
    if window != [] {
      var head, rest := window[0], window[1..];
      assert window == [head] + rest;
      OnSymbolOfAppend([head], rest, y);
      OnSymbolOfOne(head, y);
      OnSymbolOfAppend([e], rest, y);
      forall other ensures |OnSymbol(rest, other)| <= 1 {
        OnSymbolOfAppend([head], rest, other);
      }
      if head.symbol == e.symbol {
        OnSymbolOfAppend([head], rest, e.symbol);
        OnSymbolOfOne(head, e.symbol);
        assert |OnSymbol(window, e.symbol)| <= 1;
      } else {
        BufferedReplaces(rest, e, y);
        OnSymbolOfAppend([head], Buffered(rest, e), y);
      }
    }
  }

  lemma {:induction false} PutAllAppends(output: seq<MarketEvent>, events: seq<MarketEvent>)
    requires |output| + |events| <= OUTPUT_MAX_SIZE
    ensures PutAll(output, events) == output + events
  {
    if events != [] {
      PutAllAppends(output, events[..|events| - 1]);
    }
  }

  lemma PushKeepsWindow(before: seq<MarketEvent>, window: seq<MarketEvent>, e: MarketEvent, y: Symbol)
    requires forall other :: OnSymbol(window, other) == LastOn(before, other)
    ensures OnSymbol(Buffered(window, e), y) == LastOn(before + [e], y)
  {
    BufferedReplaces(window, e, y);
    OnSymbolOfAppend(before, [e], y);
    OnSymbolOfOne(e, y);
  }

  /** The buffer holds the last event of each symbol of the open window. */
  lemma {:induction false} BufferHoldsLast(ops: seq<Op>)
    ensures Run(ops).aggregator.mode == Agg
    ensures forall y :: OnSymbol(Run(ops).aggregator.window, y) == LastOn(OpenWindow(ops), y)
  {
    hide OnSymbol, LastOn;
    if ops == [] {
      forall y ensures OnSymbol([], y) == LastOn([], y) { NothingOnEmpty(y); }
    } else {
      var front, op := ops[..|ops| - 1], ops[|ops| - 1];
      BufferHoldsLast(front);
      var r := Run(front);
      match op
      case Push(e) =>
        forall y ensures OnSymbol(Run(ops).aggregator.window, y) == LastOn(OpenWindow(ops), y) {
          PushKeepsWindow(OpenWindow(front), r.aggregator.window, e, y);
        }
      case Flush =>
        forall y ensures OnSymbol([], y) == LastOn([], y) { NothingOnEmpty(y); }
      case Get =>
    }
  }

  lemma NothingOnEmpty(y: Symbol)
    ensures OnSymbol([], y) == [] && LastOn([], y) == []
  {
  }

  lemma LastPerWindowGrows(windows: seq<seq<MarketEvent>>, w: seq<MarketEvent>, y: Symbol)
    ensures LastPerWindow(windows + [w], y) == LastPerWindow(windows, y) + LastOn(w, y)
  {
    assert (windows + [w])[..|windows|] == windows;
  }

  lemma FlushEmits(r: AggRun, windows: seq<seq<MarketEvent>>, w: seq<MarketEvent>, y: Symbol)
    requires r.aggregator.mode == Agg && !Apply(r, Flush).overflowed
    requires OnSymbol(r.aggregator.window, y) == LastOn(w, y)
    requires OnSymbol(r.got + r.aggregator.output, y) == LastPerWindow(windows, y)
    ensures OnSymbol(Apply(r, Flush).got + Apply(r, Flush).aggregator.output, y) == LastPerWindow(windows + [w], y)
  {
    hide OnSymbol, LastOn, LastPerWindow, PutAll;
    PutAllAppends(r.aggregator.output, r.aggregator.window);
    OnSymbolOfAppend(r.got + r.aggregator.output, r.aggregator.window, y);
    assert r.got + (r.aggregator.output + r.aggregator.window) == (r.got + r.aggregator.output) + r.aggregator.window;
    LastPerWindowGrows(windows, w, y);
  }

  lemma GetEmitsNothing(r: AggRun)
    ensures Apply(r, Get).got + Apply(r, Get).aggregator.output == r.got + r.aggregator.output
    ensures Apply(r, Get).overflowed == r.overflowed
  {
  }

  /** As long as the output queue has not overflowed, the events of each symbol that came out or wait in
      the queue are the last one of every closed window in which the symbol occurred, in order. */
  lemma {:induction false} EmitsLastPerWindow(ops: seq<Op>, y: Symbol)
    requires !Run(ops).overflowed
    ensures OnSymbol(Run(ops).got + Run(ops).aggregator.output, y) == LastPerWindow(ClosedWindows(ops), y)
  {
    if ops == [] {
      NothingOnEmpty(y);
    } else {
      hide OnSymbol, LastOn, LastPerWindow, PutAll, Buffered;
      var front, op := ops[..|ops| - 1], ops[|ops| - 1];
      BufferHoldsLast(front);
      GetEmitsNothing(Run(front));
      assert !Run(front).overflowed;
      EmitsLastPerWindow(front, y);
      if op.Flush? {
        FlushEmits(Run(front), ClosedWindows(front), OpenWindow(front), y);
      }
    }
  }

  // ---- aggregation refines the raw stream ----

  function Concat(windows: seq<seq<MarketEvent>>): seq<MarketEvent> {
    if windows == [] then [] else Concat(windows[..|windows| - 1]) + windows[|windows| - 1]
  }

  lemma {:induction false} PushesAreWindows(ops: seq<Op>)
    ensures Pushes(ops) == Concat(ClosedWindows(ops)) + OpenWindow(ops)
  {
    if ops != [] {
      var front := ops[..|ops| - 1];
      PushesAreWindows(front);
      if ops[|ops| - 1].Flush? {
        assert ClosedWindows(ops)[..|ClosedWindows(front)|] == ClosedWindows(front);
      }
    }
  }

  /** `thin` keeps some of `full`'s events, in order, among them the last. */
  ghost predicate Thinned(thin: seq<MarketEvent>, full: seq<MarketEvent>) {
    && (thin == [] <==> full == [])
    && (full != [] ==> thin[|thin| - 1] == full[|full| - 1])
    && (forall e | e in thin :: e in full)
    && NeverDecreases(thin)
    && (RepeatsAgree(full) ==> RepeatsAgree(thin))
  }

  lemma FrontIsOrdered(before: seq<MarketEvent>, on: seq<MarketEvent>)
    requires NeverDecreases(before + on)
    ensures NeverDecreases(before) && (RepeatsAgree(before + on) ==> RepeatsAgree(before))
    ensures forall e | e in before && on != [] ::
      e.seqNo <= on[|on| - 1].seqNo
        && (RepeatsAgree(before + on) && e.seqNo == on[|on| - 1].seqNo ==> e == on[|on| - 1])
  {
    var full := before + on;
    forall i, j | 0 <= i < j < |before|
      ensures before[i].seqNo <= before[j].seqNo
        && (RepeatsAgree(full) && before[i].seqNo == before[j].seqNo ==> before[i] == before[j])
    {
      assert full[i] == before[i] && full[j] == before[j];
    }
    if on != [] {
      assert full[|full| - 1] == on[|on| - 1];
      forall e | e in before
        ensures e.seqNo <= on[|on| - 1].seqNo
          && (RepeatsAgree(full) && e.seqNo == on[|on| - 1].seqNo ==> e == on[|on| - 1])
      {
        var i :| 0 <= i < |before| && before[i] == e;
        assert full[i] == e;
      }
    }
  }

  lemma ThinningGrows(thin: seq<MarketEvent>, before: seq<MarketEvent>, on: seq<MarketEvent>)
    requires Thinned(thin, before) && NeverDecreases(before + on)
    ensures Thinned(thin + if on == [] then [] else [on[|on| - 1]], before + on)
  {
    FrontIsOrdered(before, on);
    if on == [] {
      assert before + on == before && thin + [] == thin;
    } else {
      var full, last := before + on, on[|on| - 1];
      assert full[|full| - 1] == last;
      forall i | 0 <= i < |thin| ensures thin[i].seqNo <= last.seqNo
        && (RepeatsAgree(full) && thin[i].seqNo == last.seqNo ==> thin[i] == last) {
        assert thin[i] in thin;
      }
    }
  }

  /** The coalesced stream is an ordered thinning of the full one that keeps its last event. */
  lemma {:induction false} CoalescingThins(windows: seq<seq<MarketEvent>>, y: Symbol)
    requires NeverDecreases(OnSymbol(Concat(windows), y))
    ensures Thinned(LastPerWindow(windows, y), OnSymbol(Concat(windows), y))
  {
    if windows != [] {
      hide OnSymbol, Thinned, NeverDecreases;
      var front, w := windows[..|windows| - 1], windows[|windows| - 1];
      OnSymbolOfAppend(Concat(front), w, y);
      var before, on := OnSymbol(Concat(front), y), OnSymbol(w, y);
      FrontIsOrdered(before, on);
      CoalescingThins(front, y);
      ThinningGrows(LastPerWindow(front, y), before, on);
      assert LastOn(w, y) == if on == [] then [] else [on[|on| - 1]];
    }
  }

  /** Whether the two classifications can end with the same event: the baseline already covers the last push,
      or the first push with its number is also the first that the coalescing leaves of that number. */
  predicate KeepsTheFirst(ops: seq<Op>, y: Symbol, last: Option<int>) {
    var pushes := OnSymbol(Pushes(ops), y);
    pushes == [] ||
    (var top := pushes[|pushes| - 1].seqNo;
     (last.Some? && top <= last.value) || FirstAt(LastPerWindow(ClosedWindows(ops), y), top) == FirstAt(pushes, top))
  }

  lemma ThinnedProgress(thin: seq<MarketEvent>, full: seq<MarketEvent>, start: Progress)
    requires Thinned(thin, full) && NeverDecreases(full) && full != []
    ensures var top := full[|full| - 1].seqNo;
      && Absorb(start, thin, false).last == Absorb(start, full, false).last
      && (Absorb(start, thin, false) == Absorb(start, full, false) <==>
          (start.last.Some? && top <= start.last.value) || FirstAt(thin, top) == FirstAt(full, top))
  {
    hide Absorb, FirstAt;
    OnlyTheLastMatters(start, full);
    OnlyTheLastMatters(start, thin);
    if start.last.None? || start.last.value < full[|full| - 1].seqNo {
      AcceptedIsFirst(start, full);
      AcceptedIsFirst(start, thin);
    }
  }

  lemma AgreeingRepeatsAreOne(full: seq<MarketEvent>, e: MarketEvent, f: MarketEvent)
    requires RepeatsAgree(full) && e in full && f in full && e.seqNo == f.seqNo
    ensures e == f
  {
    var i :| 0 <= i < |full| && full[i] == e;
    var j :| 0 <= j < |full| && full[j] == f;
    assert i < j || j < i || i == j;
  }

  lemma ThinnedKeepsTheFirst(thin: seq<MarketEvent>, full: seq<MarketEvent>)
    requires Thinned(thin, full) && RepeatsAgree(full) && full != []
    ensures var top := full[|full| - 1].seqNo; FirstAt(thin, top) == FirstAt(full, top)
  {
    var top := full[|full| - 1].seqNo;
    FirstAtIsOne(full, top);
    FirstAtIsOne(thin, top);
    assert thin[|thin| - 1] in thin && full[|full| - 1] in full;
    hide FirstAt;
    AgreeingRepeatsAreOne(full, FirstAt(thin, top).value, FirstAt(full, top).value);
  }

  /** Aggregation refines the raw stream: for pushes whose sequence numbers never decrease, classifying the
      aggregated output with gap detection off ends at the same baseline as classifying every push, and
      with the same last accepted event exactly when the coalescing keeps the first event of the last
      number; it does if a repeated sequence number repeats its event. */
  lemma AggregationRefinesRaw(ops: seq<Op>, y: Symbol, start: Progress)
    requires !Run(ops).overflowed && OpenWindow(ops) == []
    requires NeverDecreases(OnSymbol(Pushes(ops), y))
    ensures var r := Run(ops);
      var thin := Absorb(start, OnSymbol(r.got + r.aggregator.output, y), false);
      var full := Absorb(start, OnSymbol(Pushes(ops), y), false);
      && thin.last == full.last
      && (thin == full <==> KeepsTheFirst(ops, y, start.last))
      && (RepeatsAgree(OnSymbol(Pushes(ops), y)) ==> thin == full)
  {
    hide Run, OnSymbol, LastPerWindow, ClosedWindows, OpenWindow, Pushes, Absorb;
    EmitsLastPerWindow(ops, y);
    PushesAreWindows(ops);
    var windows := ClosedWindows(ops);
    assert Pushes(ops) == Concat(windows);
    CoalescingThins(windows, y);
    if OnSymbol(Pushes(ops), y) != [] {
      ThinnedProgress(LastPerWindow(windows, y), OnSymbol(Pushes(ops), y), start);
      if RepeatsAgree(OnSymbol(Pushes(ops), y)) {
        ThinnedKeepsTheFirst(LastPerWindow(windows, y), OnSymbol(Pushes(ops), y));
      }
    }
  }

  lemma AbsorbPair(e: MarketEvent, e': MarketEvent)
    requires e.symbol == e'.symbol && e.seqNo == e'.seqNo
    ensures OnSymbol([e], e.symbol) == [e] && OnSymbol([e, e'], e.symbol) == [e, e']
    ensures Absorb(Progress(None, None), [e], false).accepted == Some(e)
    ensures Absorb(Progress(None, None), [e, e'], false).accepted == Some(e)
  {
    var none: seq<MarketEvent> := [];
    assert [e, e'][..1] == [e] && [e][..0] == none;
    assert OnSymbol([e], e.symbol) == [e];
    assert Absorb(Progress(None, None), none, false) == Progress(None, None);
    assert Absorb(Progress(None, None), [e], false) == Progress(Some(e.seqNo), Some(e));
  }

  lemma RunPair(e: MarketEvent, e': MarketEvent)
    requires e.symbol == e'.symbol
    ensures var ops := [Push(e), Push(e'), Flush];
      && Pushes(ops) == [e, e'] && OpenWindow(ops) == [] && !Run(ops).overflowed
      && Run(ops).got + Run(ops).aggregator.output == [e']
  {
    var one, two, ops := [Push(e)], [Push(e), Push(e')], [Push(e), Push(e'), Flush];
    assert ops[..2] == two && two[..1] == one && one[..0] == [];
    assert Pushes(one) == [e] && Pushes(two) == [e, e'];
    assert Run(one).aggregator == Aggregator(Agg, [e], []);
    assert Run(two).aggregator == Aggregator(Agg, [e'], []);
    PutAllAppends([], [e']);
  }

  /** The proviso on repeats is needed: within a window the later copy wins, between windows the earlier. */
  lemma RepeatsCanDiffer(e: MarketEvent, e': MarketEvent)
    requires e.symbol == e'.symbol && e.seqNo == e'.seqNo && e != e'
    ensures var ops := [Push(e), Push(e'), Flush];
      && !Run(ops).overflowed && OpenWindow(ops) == []
      && Absorb(Progress(None, None), OnSymbol(Pushes(ops), e.symbol), false).accepted == Some(e)
      && Absorb(Progress(None, None), OnSymbol(Run(ops).got + Run(ops).aggregator.output, e.symbol), false).accepted ==
           Some(e')
  {
    hide Run, Pushes, OpenWindow, OnSymbol, Absorb;
    RunPair(e, e');
    AbsorbPair(e, e');
    AbsorbPair(e', e);
  }
}
