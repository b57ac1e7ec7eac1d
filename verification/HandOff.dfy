/** The engine, Redis and one client's stream together: the engine writes each event's snapshot and then
    publishes it, in-run retries may repeat either, Pub/Sub is a FIFO channel that may be disturbed, and
    the gateway reads real snapshots. Every sequence of steps is a run; a step that the current state does
    not allow changes nothing. */
module HandOff {
  import opened Events
  import opened Sequencing
  import opened Aggregation
  import opened Session
  import opened Streams

  datatype World = World(
    // the engine: each symbol's events so far, and whether the newest was published yet
    fed: map<Symbol, seq<MarketEvent>>,
    published: set<Symbol>,
    // the channels whose events reach the gateway, and what is on its way there
    listening: set<Symbol>,
    channel: seq<MarketEvent>,
    stream: Stream,
    // symbols a subscribe was begun for, and those something out of the ordinary happened to
    asked: set<Symbol>,
    disturbed: set<Symbol>)

  datatype WorldStep =
    | Update(event: MarketEvent)
    | PublishCurrent(symbol: Symbol)
    | Listen(symbols: set<Symbol>)
    | Cut
    | Lose(at: nat)
    | Duplicate(at: nat)
    | Swap(at: nat)
    | Arrive
    | Client(step: Streams.Step)

  function Launched(mode: Mode, policy: Policy): World {
    World(map[], {}, {}, [], Connected(mode, policy), {}, {})
  }

  function History(w: World, y: Symbol): seq<MarketEvent> {
    if y in w.fed then w.fed[y] else []
  }

  /** What Redis answers for `y` now. */
  function SnapshotNow(w: World, y: Symbol): Option<SnapshotData> {
    var events := History(w, y);
    if events == [] then None else Some(SnapshotOf(events[|events| - 1]))
  }

  /** The feed numbers a symbol's events consecutively, and the engine finishes one before the next. A
      retried write of the same event changes nothing. */
  function Updated(w: World, e: MarketEvent): World {
    var events := History(w, e.symbol);
    if events == [] || (e.symbol in w.published && e.seqNo == events[|events| - 1].seqNo + 1) then
      w.(fed := w.fed[e.symbol := events + [e]], published := w.published - {e.symbol})
    else w
  }

  function PublishedCurrent(w: World, y: Symbol): World {
    var events := History(w, y);
    if events == [] then w
    else
      w.(published := w.published + {y},
         channel := if y in w.listening then w.channel + [events[|events| - 1]] else w.channel)
  }

  /** The client's own step; snapshot reads return what is stored. A subscribe is out of the ordinary if it is not
      the first, has a filter, or begins while the channel is not heard. */
  function ClientDid(w: World, step: Streams.Step): World {
    match step
    case Deliver(_) => w
    case Join(y, filter) =>
      if !w.stream.joining.NotJoining? then w
      else
        w.(stream := Step1(w.stream, step), asked := w.asked + {y},
           disturbed := if y in w.asked || filter.Some? || y !in w.listening then w.disturbed + {y} else w.disturbed)
    case Leave(y) => w.(stream := Step1(w.stream, step), disturbed := w.disturbed + {y})
    case ReadSnapshot(_) =>
      if w.stream.joining.Buffering? then
        w.(stream := Step1(w.stream, Streams.ReadSnapshot(SnapshotNow(w, w.stream.joining.init.symbol))))
      else w
    case FetchAnswers(_) =>
      if w.stream.dispatch.Fetching? then
        w.(stream := Step1(w.stream, Streams.FetchAnswers(SnapshotNow(w, w.stream.dispatch.event.symbol))))
      else w
    case _ => w.(stream := Step1(w.stream, step))
  }

  function WorldStep1(w: World, step: WorldStep): World {
    match step
    case Update(e) => Updated(w, e)
    case PublishCurrent(y) => PublishedCurrent(w, y)
    case Cut => w.(listening := {}, channel := [], disturbed := w.disturbed + w.asked * w.listening)
    case Listen(ys) => w.(listening := ys, disturbed := w.disturbed + w.asked * (w.listening - ys))
    case Lose(i) =>
      if i < |w.channel| then
        w.(channel := w.channel[..i] + w.channel[i + 1..], disturbed := w.disturbed + {w.channel[i].symbol})
      else w
    case Duplicate(i) =>
      if i < |w.channel| then w.(channel := w.channel + [w.channel[i]],
        disturbed := w.disturbed + {w.channel[i].symbol}) else w
    case Swap(i) =>
      if i + 1 < |w.channel| then
        w.(channel := w.channel[i := w.channel[i + 1]][i + 1 := w.channel[i]],
           disturbed := w.disturbed + {w.channel[i].symbol, w.channel[i + 1].symbol})
      else w
    case Arrive =>
      if w.channel == [] then w else w.(channel := w.channel[1..], stream := Delivered(w.stream, w.channel[0]))
    case Client(s) => ClientDid(w, s)
  }

  function WorldRun(w: World, steps: seq<WorldStep>): World {
    if steps == [] then w else WorldStep1(WorldRun(w, steps[..|steps| - 1]), steps[|steps| - 1])
  }
}
