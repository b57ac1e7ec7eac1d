/** Everything together: one engine process, Redis, the gateway's shared tables with all their clients, the lock
    and the reconnecting fan-out loop, and the stream of one of the clients, whichever it is. What reaches the
    gateway is what its fan-out loop hears; the client's stream moves with its calls. */
module SharedGateway {
  import opened Events
  import opened Session
  import opened HandOff
  import Sequencing
  import Aggregation
  import Streams
  import Gapless
  import GapHealing
  import R = Registries
  import G = RegistryGuarantees
  import E = EngineRuns
  import C = Composition

  datatype Whole = Whole(hub: R.Hub, system: C.System)

  /** The engine's and the world's own steps; a step of the tables by any client or the fan-out loop, with the
      filter if it is a subscribe; and the two ways in which the client's snapshot read can end. */
  datatype Act =
    | EngineDoes(step: E.Step)
    | WorldDoes(move: WorldStep)
    | TablesDo(change: R.Step, filter: Option<Filter>)
    | ReadFails(reason: string)
    | Completes

  // ---- the steps ----

  /** The channels whose events reach the gateway's sessions. */
  function Hears(h: R.Hub): (ys: set<Symbol>)
    ensures forall y :: y in ys <==> R.Heard(h, y)
  {
    if h.loop.Listening? && h.pubsub.Some? then h.pubsub.value else {}
  }

  /** What a step of the tables does to the stream of `me`. */
  function Mine(h: R.Hub, g: R.Hub, me: R.Client, change: R.Step, filter: Option<Filter>): Option<Streams.Step> {
    var was, now := R.CallOf(h.sessions, me), R.CallOf(g.sessions, me);
    if now.Fetching? && !was.Fetching? then Some(Streams.Join(now.symbol, filter))
    else
      match change
      case BeginUnsubscribe(c, y) => if c == me && was.Idle? then Some(Streams.Leave(y)) else None
      case GiveUp(c) => if c == me && h != g then Some(Streams.Notify("subscription unavailable")) else None
      case DispatchDies(c) => if c == me then Some(Streams.FetchFails) else None
      case _ => None
  }

  /** When listening ends, what was on its way is lost with the connection. */
  function Hearing(h: R.Hub, change: R.Step): WorldStep {
    if change.ListenEnds? && h.loop.Listening? then Cut else Listen(Hears(R.Step1(h, change)))
  }

  /** The tables move, the gateway hears what it then hears, and the client's stream follows. */
  function Moved(log: Log, x: Whole, change: R.Step, mine: Option<Streams.Step>): Whole {
    var g := R.Step1(x.hub, change);
    var heard := C.Act1(log, x.system, C.WorldDoes(Hearing(x.hub, change)));
    Whole(g, if mine.Some? then C.Act1(log, heard, C.WorldDoes(Client(mine.value))) else heard)
  }

  /** The end of a subscribe and the death of the dispatch loop are decided by the stream, not the tables. */
  predicate TablesMay(x: Whole, me: R.Client, change: R.Step) {
    && !(change.Activate? && change.client == me) && !(change.SnapshotFails? && change.client == me)
    && (change.DispatchDies? && change.client == me ==>
          me in x.hub.sessions && x.system.world.stream.dispatch.Fetching?)
  }

  /** The stream steps that concern no call of the client. */
  predicate OfStreamAlone(step: Streams.Step) {
    !step.Join? && !step.JoinFails? && !step.Activate? && !step.Leave? && !step.FetchFails?
  }

  predicate WorldMay(move: WorldStep) {
    !move.Listen? && !move.Cut? && (move.Client? ==> OfStreamAlone(move.step))
  }

  predicate Succeeds(s: Streams.Stream) {
    s.joining.SnapshotRead? && !s.joining.init.overflowed && (s.joining.snapshot.None? || Accepts(s.out))
  }

  /** The client has left: its part of the story is over. */
  predicate HasLeft(h: R.Hub, me: R.Client) {
    me in h.sessions && R.Departed(h.sessions[me].call)
  }

  function Act1(log: Log, me: R.Client, x: Whole, act: Act): Whole {
    if HasLeft(x.hub, me) then x
    else
      match act
      case EngineDoes(step) => x.(system := C.Act1(log, x.system, C.EngineDoes(step)))
      case WorldDoes(move) => if WorldMay(move) then x.(system := C.Act1(log, x.system, C.WorldDoes(move))) else x
      case TablesDo(change, filter) =>
        if TablesMay(x, me, change) then
          Moved(log, x, change, Mine(x.hub, R.Step1(x.hub, change), me, change, filter))
        else x
      case ReadFails(reason) =>
        if R.CallOf(x.hub.sessions, me).Fetching? then
          Moved(log, x, R.SnapshotFails(me), Some(Streams.JoinFails(reason)))
        else x
      case Completes =>
        var s := x.system.world.stream;
        if R.CallOf(x.hub.sessions, me).Fetching? && s.joining.SnapshotRead? then
          Moved(log, x, if Succeeds(s) then R.Activate(me) else R.SnapshotFails(me), Some(Streams.Activate))
        else x
  }

  function Begun(log: Log, base: map<TopicPartition, nat>, fallback: map<TopicPartition, nat>,
                 mode: Aggregation.Mode, policy: Policy): Whole
  {
    Whole(R.STARTED, C.Begun(log, base, fallback, mode, policy))
  }

  function BegunRaw(log: Log, base: map<TopicPartition, nat>, fallback: map<TopicPartition, nat>): Whole {
    Begun(log, base, fallback, Aggregation.Raw, DropOldestPolicy)
  }

  function Run(log: Log, me: R.Client, x: Whole, acts: seq<Act>): Whole {
    if acts == [] then x else Act1(log, me, Run(log, me, x, acts[..|acts| - 1]), acts[|acts| - 1])
  }

  // ---- what ties the tables to the stream ----

  /** The tables hold of `me` what its stream holds: what it is subscribed to, what it is being initialised for
      and whether its dispatch loop died. */
  predicate Seated(h: R.Hub, me: R.Client, s: Streams.Stream) {
    && (if me in h.sessions then
         h.sessions[me].subscriptions == s.subscriptions && (h.sessions[me].died <==> s.dispatch.Dead?)
        else s.subscriptions == {} && !s.dispatch.Dead?)
    && (R.CallOf(h.sessions, me).Fetching? <==> !s.joining.NotJoining?)
    && (!s.joining.NotJoining? ==> R.CallOf(h.sessions, me).symbol == s.joining.init.symbol)
  }

  ghost predicate Inv(log: Log, mode: Aggregation.Mode, policy: Policy, me: R.Client, x: Whole) {
    && G.Reachable(x.hub) && C.Composed(log, mode, policy, x.system)
    && x.system.world.listening == Hears(x.hub) && Seated(x.hub, me, x.system.world.stream)
  }

  // ---- every step keeps them tied ----

  /** A step of somebody else leaves the client's place as it is. */
  lemma OthersLeaveMine(h: R.Hub, me: R.Client, change: R.Step, filter: Option<Filter>, s: Streams.Stream)
    requires G.Mover(change) != Some(me) && Seated(h, me, s)
    ensures Mine(h, R.Step1(h, change), me, change, filter) == None && Seated(R.Step1(h, change), me, s)
  {
    G.OthersStay(h, change, me);
    hide R.Step1;
  }

  function Did(s: Streams.Stream, mine: Option<Streams.Step>): Streams.Stream {
    if mine.Some? then Streams.Step1(s, mine.value) else s
  }

  lemma TryMoves(h: R.Hub, me: R.Client, change: R.Step)
    requires G.OfChannel(change) && change.client == me
    ensures var g := R.Step1(h, change);
      && (me in g.sessions <==> me in h.sessions)
      && (me in h.sessions ==> g.sessions[me] == h.sessions[me].(call := g.sessions[me].call))
      && (R.CallOf(h.sessions, me).Fetching? ==> g == h)
  {
    hide R.Registered, R.Entered;
  }

  lemma MyTry(h: R.Hub, me: R.Client, change: R.Step, filter: Option<Filter>, s: Streams.Stream)
    requires G.OfChannel(change) && change.client == me && Seated(h, me, s)
    ensures var g := R.Step1(h, change); Seated(g, me, Did(s, Mine(h, g, me, change, filter)))
  {
    TryMoves(h, me, change);
    var now := R.CallOf(R.Step1(h, change).sessions, me);
    if now.Fetching? && s.joining.NotJoining? {
      JoinBegins(s, now.symbol, filter);
    }
    hide R.Step1, Streams.Step1;
  }

  lemma JoinBegins(s: Streams.Stream, y: Symbol, filter: Option<Filter>)
    requires s.joining.NotJoining?
    ensures Streams.Step1(s, Streams.Join(y, filter)) ==
            s.(joining := Streams.Buffering(Streams.Initialization(y, filter, [], false)))
  {
  }

  lemma MyBeginning(h: R.Hub, me: R.Client, change: R.Step, filter: Option<Filter>, s: Streams.Stream)
    requires change.Connect? || change.BeginSubscribe? || change.BeginUnsubscribe? || change.Disconnect?
    requires change.client == me && Seated(h, me, s)
    ensures var g := R.Step1(h, change); Seated(g, me, Did(s, Mine(h, g, me, change, filter)))
  {
    hide R.Struck, R.StruckAll, R.LeftBehind, R.InUse;
  }

  /** A step that moves nothing of `me` but its call, from and to somewhere without an initialisation. */
  predicate OnlyCallMoves(h: R.Hub, g: R.Hub, me: R.Client) {
    && (me in g.sessions <==> me in h.sessions)
    && (me in h.sessions ==>
          && g.sessions[me].subscriptions == h.sessions[me].subscriptions && g.sessions[me].died == h.sessions[me].died)
    && (h != g ==> !R.CallOf(h.sessions, me).Fetching? && !R.CallOf(g.sessions, me).Fetching?)
  }

  lemma DropMoves(h: R.Hub, me: R.Client, y: Symbol)
    ensures OnlyCallMoves(h, R.Step1(h, R.StartDrop(me, y)), me)
  {
  }

  lemma DropAnswerMoves(h: R.Hub, me: R.Client, landed: bool)
    ensures OnlyCallMoves(h, R.Step1(h, R.UnsubscribeAnswered(me, landed)), me)
  {
  }

  lemma GivingUpMoves(h: R.Hub, me: R.Client)
    ensures OnlyCallMoves(h, R.Step1(h, R.GiveUp(me)), me)
  {
    hide R.Struck, R.InUse;
  }

  lemma CallKeepsSeat(h: R.Hub, g: R.Hub, me: R.Client, s: Streams.Stream, t: Streams.Stream)
    requires Seated(h, me, s) && OnlyCallMoves(h, g, me)
    requires t.subscriptions == s.subscriptions && t.joining == s.joining && t.dispatch == s.dispatch
    ensures Seated(g, me, t)
  {
  }

  lemma MyDrop(h: R.Hub, me: R.Client, change: R.Step, filter: Option<Filter>, s: Streams.Stream)
    requires change.StartDrop? || change.UnsubscribeAnswered? || change.GiveUp?
    requires change.client == me && Seated(h, me, s)
    ensures var g := R.Step1(h, change); Seated(g, me, Did(s, Mine(h, g, me, change, filter)))
  {
    var g := R.Step1(h, change);
    match change {
      case StartDrop(_, y) => DropMoves(h, me, y);
      case UnsubscribeAnswered(_, landed) => DropAnswerMoves(h, me, landed);
      case GiveUp(_) => GivingUpMoves(h, me);
    }
    hide R.Step1, Streams.Offered;
    CallKeepsSeat(h, g, me, s, Did(s, Mine(h, g, me, change, filter)));
    hide Seated;
  }

  lemma MyDeath(h: R.Hub, me: R.Client, filter: Option<Filter>, s: Streams.Stream)
    requires Seated(h, me, s) && me in h.sessions && !HasLeft(h, me) && s.dispatch.Fetching?
    ensures var g := R.Step1(h, R.DispatchDies(me)); Seated(g, me, Did(s, Mine(h, g, me, R.DispatchDies(me), filter)))
  {
  }

  lemma TablesKeepSeat(x: Whole, me: R.Client, change: R.Step, filter: Option<Filter>)
    requires Seated(x.hub, me, x.system.world.stream) && TablesMay(x, me, change) && !HasLeft(x.hub, me)
    ensures var g := R.Step1(x.hub, change);
      Seated(g, me, Did(x.system.world.stream, Mine(x.hub, g, me, change, filter)))
  {
    var h, s := x.hub, x.system.world.stream;
    assert Did(s, None) == s;
    hide Seated, R.Step1, Mine, Did;
    if G.Mover(change) != Some(me) {
      OthersLeaveMine(h, me, change, filter, s);
    } else {
      match change
      case Try(_) => MyTry(h, me, change, filter, s);
      case SubscribeAnswered(_, _, _) => MyTry(h, me, change, filter, s);
      case GiveUp(_) => MyDrop(h, me, change, filter, s);
      case StartDrop(_, _) => MyDrop(h, me, change, filter, s);
      case UnsubscribeAnswered(_, _) => MyDrop(h, me, change, filter, s);
      case DispatchDies(_) => MyDeath(h, me, filter, s);
      case _ => MyBeginning(h, me, change, filter, s);
    }
  }

  lemma ReadFailureKeepsSeat(h: R.Hub, me: R.Client, s: Streams.Stream, reason: string)
    requires Seated(h, me, s) && R.CallOf(h.sessions, me).Fetching?
    ensures Seated(R.Step1(h, R.SnapshotFails(me)), me, Streams.JoinFailed(s, reason))
  {
    hide R.Struck, R.InUse, Streams.Offered;
  }

  lemma EndMoves(h: R.Hub, me: R.Client, active: bool)
    requires R.CallOf(h.sessions, me).Fetching?
    ensures var y, g := R.CallOf(h.sessions, me).symbol,
      R.Step1(h, if active then R.Activate(me) else R.SnapshotFails(me));
      && me in g.sessions && !R.CallOf(g.sessions, me).Fetching? && g.sessions[me].died == h.sessions[me].died
      && g.sessions[me].subscriptions == h.sessions[me].subscriptions + if active then {y} else {}
  {
    hide R.Struck, R.Entered, R.InUse;
  }

  lemma StreamEnds(s: Streams.Stream)
    requires s.joining.SnapshotRead?
    ensures var t := Streams.Activated(s);
      && t.joining.NotJoining? && t.dispatch == s.dispatch
      && t.subscriptions == s.subscriptions + if Succeeds(s) then {s.joining.init.symbol} else {}
  {
    JoinedEnds(s, s.joining.init, s.joining.snapshot);
    hide Streams.Offered, Streams.Joined, Accepts;
  }

  lemma JoinedEnds(s: Streams.Stream, init: Streams.Initialization, snapshot: Option<SnapshotData>)
    ensures var t := Streams.Joined(s, init, snapshot);
      t.joining.NotJoining? && t.dispatch == s.dispatch && t.subscriptions == s.subscriptions + {init.symbol}
  {
    hide Streams.Offered, Streams.PushAll, Streams.SortBySeq, Streams.Newer, Streams.Overflows;
  }

  lemma CompletionKeepsSeat(h: R.Hub, me: R.Client, s: Streams.Stream)
    requires Seated(h, me, s) && R.CallOf(h.sessions, me).Fetching? && s.joining.SnapshotRead?
    ensures Seated(R.Step1(h, if Succeeds(s) then R.Activate(me) else R.SnapshotFails(me)), me, Streams.Activated(s))
  {
    EndMoves(h, me, Succeeds(s));
    StreamEnds(s);
    hide R.Step1, Streams.Activated, Succeeds;
  }

  /** The client's own step as the world carries it out. */
  lemma ClientFollows(w: World, mine: Streams.Step)
    requires !mine.Deliver? && !mine.ReadSnapshot? && !mine.FetchAnswers?
    ensures ClientDid(w, mine).stream == Streams.Step1(w.stream, mine) && ClientDid(w, mine).listening == w.listening
  {
    hide Streams.Activated, Streams.JoinFailed, Streams.Dispatched, Streams.Recovered, Streams.Left, Streams.Offered;
    hide Streams.WindowFlushed, Streams.WriterTook;
  }

  predicate OfCalls(mine: Option<Streams.Step>) {
    mine.Some? ==> !mine.value.Deliver? && !mine.value.ReadSnapshot? && !mine.value.FetchAnswers?
  }

  lemma HearingIsHears(h: R.Hub, change: R.Step)
    ensures var move, g := Hearing(h, change), R.Step1(h, change);
      (move == Cut && Hears(g) == {}) || move == Listen(Hears(g))
  {
  }

  lemma HeardKeeps(log: Log, mode: Aggregation.Mode, policy: Policy, x: C.System, h: R.Hub, change: R.Step)
    requires E.OneHome(log) && C.Counted(log) && C.Composed(log, mode, policy, x)
    ensures var after := C.Act1(log, x, C.WorldDoes(Hearing(h, change)));
      && C.Composed(log, mode, policy, after) && after.world.listening == Hears(R.Step1(h, change))
      && after.world.stream == x.world.stream
  {
    hide R.Step1, C.Composed, Hears, E.OneHome, C.Counted;
    HearingIsHears(h, change);
    C.ActKeeps(log, mode, policy, x, C.WorldDoes(Hearing(h, change)));
    hide Hearing;
  }

  lemma FollowingKeeps(log: Log, mode: Aggregation.Mode, policy: Policy, x: C.System, mine: Streams.Step)
    requires E.OneHome(log) && C.Counted(log) && C.Composed(log, mode, policy, x) && OfCalls(Some(mine))
    ensures var after := C.Act1(log, x, C.WorldDoes(Client(mine)));
      && C.Composed(log, mode, policy, after) && after.world.listening == x.world.listening
      && after.world.stream == Streams.Step1(x.world.stream, mine)
  {
    hide C.Composed, E.OneHome, C.Counted, Streams.Step1;
    C.ActKeeps(log, mode, policy, x, C.WorldDoes(Client(mine)));
    ClientFollows(x.world, mine);
    hide ClientDid;
  }

  lemma MovedKeeps(log: Log, mode: Aggregation.Mode, policy: Policy, me: R.Client, x: Whole, change: R.Step,
                   mine: Option<Streams.Step>)
    requires E.OneHome(log) && C.Counted(log) && Inv(log, mode, policy, me, x) && OfCalls(mine)
    requires Seated(R.Step1(x.hub, change), me, Did(x.system.world.stream, mine))
    ensures Inv(log, mode, policy, me, Moved(log, x, change, mine))
  {
    hide Seated, R.Step1, C.Composed, C.Act1, G.Reachable, Hears, Hearing, Streams.Step1, E.OneHome, C.Counted, OfCalls;
    G.Reaches(x.hub, change);
    HeardKeeps(log, mode, policy, x.system, x.hub, change);
    if mine.Some? {
      FollowingKeeps(log, mode, policy, C.Act1(log, x.system, C.WorldDoes(Hearing(x.hub, change))), mine.value);
    }
  }

  /** What the tables know of a stream. */
  predicate SameSeat(s: Streams.Stream, t: Streams.Stream) {
    && t.subscriptions == s.subscriptions && (t.dispatch.Dead? <==> s.dispatch.Dead?)
    && (t.joining.NotJoining? <==> s.joining.NotJoining?)
    && (!s.joining.NotJoining? ==> t.joining.init.symbol == s.joining.init.symbol)
  }

  lemma AloneKeepsSeat(s: Streams.Stream, step: Streams.Step)
    requires OfStreamAlone(step)
    ensures SameSeat(s, Streams.Step1(s, step))
  {
    hide Streams.SnapshotFor, Streams.Offered, Streams.WindowFlushed, Streams.Dispatched, Streams.Recovered;
    hide Streams.WriterTook;
    match step
    case FlushWindow => LoopsKeepSeat(s);
    case DispatchNext => DispatchKeepsSeat(s);
    case Recover => LoopsKeepSeat(s);
    case WriterTakes => LoopsKeepSeat(s);
    case _ =>
  }

  lemma DispatchKeepsSeat(s: Streams.Stream)
    ensures SameSeat(s, Streams.Dispatched(s))
  {
    hide Streams.Advanced, Sequencing.Classify, Streams.Lookup;
  }

  lemma LoopsKeepSeat(s: Streams.Stream)
    ensures SameSeat(s, Streams.WindowFlushed(s)) && SameSeat(s, Streams.Recovered(s))
    ensures SameSeat(s, Streams.WriterTook(s))
  {
    hide Streams.Offered, Aggregation.Flushed, Accepts, Streams.Overflows;
  }

  lemma DeliveryKeepsSeat(s: Streams.Stream, e: MarketEvent)
    ensures SameSeat(s, Streams.Delivered(s, e))
  {
    hide Aggregation.Pushed, Streams.Overflows;
  }

  lemma ClientKeepsSeat(w: World, step: Streams.Step)
    requires OfStreamAlone(step)
    ensures SameSeat(w.stream, ClientDid(w, step).stream) && ClientDid(w, step).listening == w.listening
  {
    hide Streams.Step1, SnapshotNow, OfStreamAlone, SameSeat;
    AloneKeepsSeat(w.stream, step);
    assert SameSeat(w.stream, w.stream) by { NoSeatMoves(w.stream); }
    match step
    case ReadSnapshot(_) =>
      if w.stream.joining.Buffering? {
        AloneReads(w.stream, SnapshotNow(w, w.stream.joining.init.symbol));
      }
    case FetchAnswers(_) =>
      if w.stream.dispatch.Fetching? {
        AloneReads(w.stream, SnapshotNow(w, w.stream.dispatch.event.symbol));
      }
    case _ =>
  }

  lemma NoSeatMoves(s: Streams.Stream)
    ensures SameSeat(s, s)
  {
  }

  lemma AloneReads(s: Streams.Stream, snapshot: Option<SnapshotData>)
    ensures SameSeat(s, Streams.Step1(s, Streams.ReadSnapshot(snapshot)))
    ensures SameSeat(s, Streams.Step1(s, Streams.FetchAnswers(snapshot)))
  {
    AloneKeepsSeat(s, Streams.ReadSnapshot(snapshot));
    AloneKeepsSeat(s, Streams.FetchAnswers(snapshot));
  }

  lemma WorldKeepsSeat(log: Log, system: C.System, act: C.Act)
    requires act.WorldDoes? ==> WorldMay(act.move)
    ensures SameSeat(system.world.stream, C.Act1(log, system, act).world.stream)
    ensures C.Act1(log, system, act).world.listening == system.world.listening
  {
    NoSeatMoves(system.world.stream);
    hide SameSeat, E.Step1, OfStreamAlone, ClientDid, Streams.Delivered;
    match act
    case EngineDoes(_) =>
    case WorldDoes(move) =>
      match move {
        case Arrive =>
          if system.world.channel != [] {
            DeliveryKeepsSeat(system.world.stream, system.world.channel[0]);
          }
        case Client(step) => ClientKeepsSeat(system.world, step);
        case _ =>
      }
  }

  lemma SeatStays(h: R.Hub, me: R.Client, s: Streams.Stream, t: Streams.Stream)
    requires Seated(h, me, s) && SameSeat(s, t)
    ensures Seated(h, me, t)
  {
  }

  lemma ActKeeps(log: Log, mode: Aggregation.Mode, policy: Policy, me: R.Client, x: Whole, act: Act)
    requires E.OneHome(log) && C.Counted(log) && Inv(log, mode, policy, me, x)
    ensures Inv(log, mode, policy, me, Act1(log, me, x, act))
  {
    hide Seated, R.Step1, C.Composed, G.Reachable, Hears, E.OneHome, C.Counted, Moved, C.Act1, WorldMay;
    var s := x.system.world.stream;
    if !HasLeft(x.hub, me) {
      match act
      case EngineDoes(step) =>
        C.ActKeeps(log, mode, policy, x.system, C.EngineDoes(step));
        WorldKeepsSeat(log, x.system, C.EngineDoes(step));
        SeatStays(x.hub, me, s, C.Act1(log, x.system, C.EngineDoes(step)).world.stream);
      case WorldDoes(move) =>
        if WorldMay(move) {
          C.ActKeeps(log, mode, policy, x.system, C.WorldDoes(move));
          WorldKeepsSeat(log, x.system, C.WorldDoes(move));
          SeatStays(x.hub, me, s, C.Act1(log, x.system, C.WorldDoes(move)).world.stream);
        }
      case TablesDo(change, filter) =>
        if TablesMay(x, me, change) {
          TablesKeepSeat(x, me, change, filter);
          MovedKeeps(log, mode, policy, me, x, change, Mine(x.hub, R.Step1(x.hub, change), me, change, filter));
        }
      case ReadFails(reason) =>
        if R.CallOf(x.hub.sessions, me).Fetching? {
          ReadFailureKeepsSeat(x.hub, me, s, reason);
          MovedKeeps(log, mode, policy, me, x, R.SnapshotFails(me), Some(Streams.JoinFails(reason)));
        }
      case Completes =>
        if R.CallOf(x.hub.sessions, me).Fetching? && s.joining.SnapshotRead? {
          CompletionKeepsSeat(x.hub, me, s);
          var end := if Succeeds(s) then R.Activate(me) else R.SnapshotFails(me);
          MovedKeeps(log, mode, policy, me, x, end, Some(Streams.Activate));
        }
    }
  }

  // ---- what disturbs a symbol ----

  /** The gateway stops hearing `y`. */
  predicate Silences(h: R.Hub, change: R.Step, y: Symbol) {
    && R.Heard(h, y)
    && (change.ListenEnds?
        || (change.UnsubscribeAnswered? && change.landed
            && R.CallOf(h.sessions, change.client).Dropping? && R.CallOf(h.sessions, change.client).symbol == y))
  }

  lemma SilencesExactly(h: R.Hub, change: R.Step, y: Symbol)
    requires G.HubOk(h)
    ensures Silences(h, change, y) <==> R.Heard(h, y) && !R.Heard(R.Step1(h, change), y)
  {
    hide G.RegistryOk, R.Settled, R.Registered, R.Moved, R.Has, R.Entered, R.Struck, R.StruckAll, R.With, R.InUse;
    hide R.LeftBehind, R.Died;
  }

  predicate Begins(h: R.Hub, me: R.Client, change: R.Step, y: Symbol) {
    R.CallOf(h.sessions, me) != R.Fetching(y) && R.CallOf(R.Step1(h, change).sessions, me) == R.Fetching(y)
  }

  /** What is out of the ordinary for `me` and `y`: a fault of the channel, an unsubscribe, a subscribe that is not
      the first, has a filter or begins on a connection nobody reads, and the gateway no longer hearing a symbol
      the client asked for. */
  predicate Spoils(x: Whole, me: R.Client, act: Act, y: Symbol) {
    && !HasLeft(x.hub, me)
    && var w := x.system.world;
       match act
       case WorldDoes(move) =>
         (match move
          case Lose(i) => i < |w.channel| && w.channel[i].symbol == y
          case Duplicate(i) => i < |w.channel| && w.channel[i].symbol == y
          case Swap(i) => i + 1 < |w.channel| && (w.channel[i].symbol == y || w.channel[i + 1].symbol == y)
          case _ => false)
       case TablesDo(change, filter) =>
         && TablesMay(x, me, change)
         && ((change == R.BeginUnsubscribe(me, y) && R.CallOf(x.hub.sessions, me).Idle?)
             || (Begins(x.hub, me, change, y) && (y in w.asked || filter.Some? || x.hub.loop.Failing?))
             || (y in w.asked && Silences(x.hub, change, y)))
       case _ => false
  }

  lemma MovedDisturbs(log: Log, me: R.Client, x: Whole, change: R.Step, mine: Option<Streams.Step>, y: Symbol)
    requires OfCalls(mine) && x.system.world.listening == Hears(x.hub)
    requires mine.Some? && mine.value.Join? ==> x.system.world.stream.joining.NotJoining?
    ensures y in Moved(log, x, change, mine).system.world.disturbed <==>
      || y in x.system.world.disturbed
      || (y in x.system.world.asked && R.Heard(x.hub, y) && !R.Heard(R.Step1(x.hub, change), y))
      || (mine == Some(Streams.Leave(y)))
      || (mine.Some? && mine.value.Join? && mine.value.symbol == y
          && (y in x.system.world.asked || mine.value.filter.Some? || !R.Heard(R.Step1(x.hub, change), y)))
  {
    HearingIsHears(x.hub, change);
    hide R.Step1, R.Heard, Streams.Step1, Hearing;
  }

  lemma WorldDisturbs(log: Log, x: Whole, me: R.Client, act: C.Act, y: Symbol)
    requires act.WorldDoes? ==> WorldMay(act.move)
    requires !HasLeft(x.hub, me)
    ensures y in C.Act1(log, x.system, act).world.disturbed <==>
      || y in x.system.world.disturbed
      || (act.WorldDoes? && Spoils(x, me, WorldDoes(act.move), y))
  {
    hide E.Step1, Streams.Step1, Streams.Delivered, HasLeft;
  }

  lemma MineBegins(h: R.Hub, me: R.Client, change: R.Step, filter: Option<Filter>, y: Symbol)
    ensures var mine := Mine(h, R.Step1(h, change), me, change, filter);
      && (mine.Some? && mine.value.Join? && mine.value.symbol == y ==>
            mine.value.filter == filter && Begins(h, me, change, y) && !R.CallOf(h.sessions, me).Fetching?)
      && (!R.CallOf(h.sessions, me).Fetching? && Begins(h, me, change, y) ==> mine == Some(Streams.Join(y, filter)))
  {
    hide R.Step1;
  }

  /** An initialisation never gives way to another one. */
  lemma FetchingEndsFirst(h: R.Hub, me: R.Client, change: R.Step, y: Symbol)
    requires Begins(h, me, change, y)
    ensures !R.CallOf(h.sessions, me).Fetching?
  {
    G.OnlyChannelsInitialise(h, change, me, y);
    hide R.Entered, R.Registered;
  }

  lemma MineLeaves(h: R.Hub, me: R.Client, change: R.Step, filter: Option<Filter>, y: Symbol)
    ensures Mine(h, R.Step1(h, change), me, change, filter) == Some(Streams.Leave(y)) <==>
      change == R.BeginUnsubscribe(me, y) && R.CallOf(h.sessions, me).Idle?
  {
    if change.BeginUnsubscribe? && change.client == me && R.CallOf(h.sessions, me).Idle? {
      hide R.Struck, R.InUse;
      assert !R.CallOf(R.Step1(h, change).sessions, me).Fetching?;
    }
    hide R.Step1;
  }

  /** Exactly these things disturb a symbol. */
  lemma DisturbedExactly(log: Log, mode: Aggregation.Mode, policy: Policy, me: R.Client, x: Whole, act: Act, y: Symbol)
    requires E.OneHome(log) && C.Counted(log) && Inv(log, mode, policy, me, x)
    ensures y in Act1(log, me, x, act).system.world.disturbed <==>
      y in x.system.world.disturbed || Spoils(x, me, act, y)
  {
    var h, s := x.hub, x.system.world.stream;
    hide R.Step1, C.Composed, G.Reachable, Hears, E.OneHome, C.Counted, Moved, C.Act1, R.Heard, Silences, HasLeft;
    if !HasLeft(h, me) {
      match act
      case EngineDoes(step) => WorldDisturbs(log, x, me, C.EngineDoes(step), y);
      case WorldDoes(move) =>
        if WorldMay(move) {
          WorldDisturbs(log, x, me, C.WorldDoes(move), y);
        }
      case TablesDo(change, filter) =>
        if TablesMay(x, me, change) {
          TablesDisturb(log, me, x, change, filter, y);
        }
      case ReadFails(reason) =>
        if R.CallOf(h.sessions, me).Fetching? {
          EndDisturbs(log, me, x, R.SnapshotFails(me), Streams.JoinFails(reason), y);
        }
      case Completes =>
        if R.CallOf(h.sessions, me).Fetching? && s.joining.SnapshotRead? {
          EndDisturbs(log, me, x, if Succeeds(s) then R.Activate(me) else R.SnapshotFails(me), Streams.Activate, y);
        }
    }
  }

  /** What `MovedDisturbs` asks of the client's step is what `Spoils` says of the tables' step. */
  lemma MineSpoils(x: Whole, me: R.Client, change: R.Step, filter: Option<Filter>, y: Symbol)
    requires G.Reachable(x.hub) && TablesMay(x, me, change) && !HasLeft(x.hub, me)
    ensures var g, w := R.Step1(x.hub, change), x.system.world;
      var mine := Mine(x.hub, g, me, change, filter);
      Spoils(x, me, TablesDo(change, filter), y) <==>
        || (y in w.asked && R.Heard(x.hub, y) && !R.Heard(g, y))
        || (mine == Some(Streams.Leave(y)))
        || (mine.Some? && mine.value.Join? && mine.value.symbol == y
            && (y in w.asked || mine.value.filter.Some? || !R.Heard(g, y)))
  {
    var h := x.hub;
    hide G.HubOk, G.Reachable;
    G.ReachableOk(h);
    SilencesExactly(h, change, y);
    MineBegins(h, me, change, filter, y);
    MineLeaves(h, me, change, filter, y);
    if Begins(h, me, change, y) {
      FetchingEndsFirst(h, me, change, y);
      G.InitialisesHeardExactly(h, change, me, y);
    }
    hide R.Step1, Mine, R.Heard, Silences, HasLeft, TablesMay;
  }

  lemma TablesDisturb(log: Log, me: R.Client, x: Whole, change: R.Step, filter: Option<Filter>, y: Symbol)
    requires G.Reachable(x.hub) && x.system.world.listening == Hears(x.hub)
    requires Seated(x.hub, me, x.system.world.stream) && TablesMay(x, me, change) && !HasLeft(x.hub, me)
    ensures var mine := Mine(x.hub, R.Step1(x.hub, change), me, change, filter);
      y in Moved(log, x, change, mine).system.world.disturbed <==>
        y in x.system.world.disturbed || Spoils(x, me, TablesDo(change, filter), y)
  {
    hide R.Step1, G.Reachable, Hears, Moved, R.Heard, Spoils, HasLeft, TablesMay;
    var mine := Mine(x.hub, R.Step1(x.hub, change), me, change, filter);
    assert OfCalls(mine);
    assert mine.Some? && mine.value.Join? ==> x.system.world.stream.joining.NotJoining?;
    hide Mine, Seated;
    MineSpoils(x, me, change, filter, y);
    MovedDisturbs(log, me, x, change, mine, y);
  }

  lemma EndDisturbs(log: Log, me: R.Client, x: Whole, change: R.Step, end: Streams.Step, y: Symbol)
    requires G.Reachable(x.hub) && x.system.world.listening == Hears(x.hub)
    requires change.Activate? || change.SnapshotFails?
    requires end.Activate? || end.JoinFails?
    ensures y in Moved(log, x, change, Some(end)).system.world.disturbed <==> y in x.system.world.disturbed
  {
    G.ReachableOk(x.hub);
    SilencesExactly(x.hub, change, y);
    hide R.Step1, G.HubOk, G.Reachable, Hears, Moved, R.Heard;
    MovedDisturbs(log, me, x, change, Some(end), y);
  }

  // ---- over every run ----

  lemma BegunKeeps(log: Log, base: map<TopicPartition, nat>, fallback: map<TopicPartition, nat>,
                   mode: Aggregation.Mode, policy: Policy, me: R.Client)
    requires E.OneHome(log) && E.Fits(log, base)
    ensures Inv(log, mode, policy, me, Begun(log, base, fallback, mode, policy))
  {
    hide C.Composed, E.OneHome, E.Fits, E.Started;
    C.BegunComposed(log, base, fallback, mode, policy);
    assert R.Run([]) == R.STARTED;
    assert Seated(R.STARTED, me, Streams.Connected(mode, policy)) && Hears(R.STARTED) == {};
    hide Seated, Hears, R.Run;
  }

  /** However many clients come and go, subscribe and unsubscribe, and however often the connection is lost: the
      tables make one of their runs, the engine and the client's stream one of theirs, what reaches the gateway is
      what its loop hears, and tables and stream agree about the client. */
  lemma {:induction false} RunKeeps(log: Log, base: map<TopicPartition, nat>, fallback: map<TopicPartition, nat>,
                                    mode: Aggregation.Mode, policy: Policy, me: R.Client, acts: seq<Act>)
    requires E.OneHome(log) && C.Counted(log) && E.Fits(log, base)
    ensures Inv(log, mode, policy, me, Run(log, me, Begun(log, base, fallback, mode, policy), acts))
  {
    hide Inv, Act1;
    if acts == [] {
      BegunKeeps(log, base, fallback, mode, policy, me);
    } else {
      var front := acts[..|acts| - 1];
      RunKeeps(log, base, fallback, mode, policy, me, front);
      ActKeeps(log, mode, policy, me, Run(log, me, Begun(log, base, fallback, mode, policy), front), acts[|acts| - 1]);
    }
  }

  ghost predicate Unspoiled(log: Log, me: R.Client, x: Whole, acts: seq<Act>, y: Symbol) {
    forall i | 0 <= i < |acts| :: !Spoils(Run(log, me, x, acts[..i]), me, acts[i], y)
  }

  lemma UnspoiledSplits(log: Log, me: R.Client, x: Whole, acts: seq<Act>, y: Symbol)
    requires acts != []
    ensures var front, n := acts[..|acts| - 1], |acts| - 1;
      Unspoiled(log, me, x, acts, y) <==>
        Unspoiled(log, me, x, front, y) && !Spoils(Run(log, me, x, front), me, acts[n], y)
  {
    hide Run, Spoils;
    var front, n := acts[..|acts| - 1], |acts| - 1;
    assert front == acts[..n] && forall i | 0 <= i < n :: front[i] == acts[i] && front[..i] == acts[..i];
    if Unspoiled(log, me, x, front, y) && !Spoils(Run(log, me, x, front), me, acts[n], y) {
      forall i | 0 <= i < |acts| ensures !Spoils(Run(log, me, x, acts[..i]), me, acts[i], y) {
        assert i < n ==> !Spoils(Run(log, me, x, front[..i]), me, front[i], y);
      }
    }
    if Unspoiled(log, me, x, acts, y) {
      forall i | 0 <= i < n ensures !Spoils(Run(log, me, x, front[..i]), me, front[i], y) {
        assert !Spoils(Run(log, me, x, acts[..i]), me, acts[i], y);
      }
      assert !Spoils(Run(log, me, x, acts[..n]), me, acts[n], y);
    }
  }

  /** Over a whole run, a symbol is disturbed exactly if some act spoiled it. */
  lemma {:induction false} RunDisturbs(log: Log, base: map<TopicPartition, nat>, fallback: map<TopicPartition, nat>,
                                       mode: Aggregation.Mode, policy: Policy, me: R.Client, acts: seq<Act>, y: Symbol)
    requires E.OneHome(log) && C.Counted(log) && E.Fits(log, base)
    ensures var x := Begun(log, base, fallback, mode, policy);
      y !in Run(log, me, x, acts).system.world.disturbed <==> Unspoiled(log, me, x, acts, y)
  {
    var x := Begun(log, base, fallback, mode, policy);
    hide Inv, Act1, Spoils, E.OneHome, C.Counted, E.Fits;
    if acts != [] {
      var front, n := acts[..|acts| - 1], |acts| - 1;
      RunDisturbs(log, base, fallback, mode, policy, me, front, y);
      RunKeeps(log, base, fallback, mode, policy, me, front);
      DisturbedExactly(log, mode, policy, me, Run(log, me, x, front), acts[n], y);
      UnspoiledSplits(log, me, x, acts, y);
      hide Unspoiled;
    }
  }

  /** The hand-off among many clients. Whatever the others, the engine and the fan-out loop do, as long as nothing
      spoils `y` for the client, its first RAW subscription to `y` is told one snapshot, or the first record the
      engine reads, and then exactly the following numbers, each with the log's own content. */
  lemma GaplessAmongMany(log: Log, base: map<TopicPartition, nat>, fallback: map<TopicPartition, nat>, me: R.Client,
                         acts: seq<Act>, y: Symbol)
    requires E.OneHome(log) && C.Counted(log) && E.Fits(log, base)
    requires Unspoiled(log, me, BegunRaw(log, base, fallback), acts, y)
    requires !Run(log, me, BegunRaw(log, base, fallback), acts).system.world.stream.overflowed
    ensures var x := Run(log, me, BegunRaw(log, base, fallback), acts);
      var told := Gapless.DataOn(x.system.world.stream.hist, y);
      && (forall i | 0 <= i < |told| :: told[i].IsData() && told[i].SymbolOf() == y && C.IsLogMessage(log, told[i]))
      && (forall i | 0 < i < |told| :: told[i].Incremental? && told[i].SeqOf() == told[0].SeqOf() + i)
      && (told != [] && told[0].Incremental? ==> C.FirstRead(log, x.system.engine.runStart, told[0].event))
  {
    var x := Run(log, me, BegunRaw(log, base, fallback), acts);
    RunDisturbs(log, base, fallback, Aggregation.Raw, DropOldestPolicy, me, acts, y);
    RunKeeps(log, base, fallback, Aggregation.Raw, DropOldestPolicy, me, acts);
    assert C.Composed(log, Aggregation.Raw, DropOldestPolicy, x.system);
    hide Inv, Run, Spoils, Unspoiled, Gapless.DataOn, C.IsLogMessage, C.FirstRead, E.OneHome, C.Counted, E.Fits;
    C.ToldByTheEngine(log, x.system, y);
  }

  /** And it is told everything: registered as a subscriber, with the engine at rest and nothing of `y` on its way,
      the last number it was told is the one the engine stored. */
  lemma CompleteAmongMany(log: Log, base: map<TopicPartition, nat>, fallback: map<TopicPartition, nat>, me: R.Client,
                          acts: seq<Act>, y: Symbol)
    requires E.OneHome(log) && C.Counted(log) && E.Fits(log, base)
    requires Unspoiled(log, me, BegunRaw(log, base, fallback), acts, y)
    requires var x := Run(log, me, BegunRaw(log, base, fallback), acts);
      && !x.system.world.stream.overflowed && R.Has(x.hub.subscriptions, y, me)
      && x.system.engine.task.Waiting? && y in x.system.engine.snapshots
      && Sequencing.OnSymbol(x.system.world.channel, y) == []
      && Sequencing.OnSymbol(x.system.world.stream.aggregator.output, y) == []
    ensures var x := Run(log, me, BegunRaw(log, base, fallback), acts);
      var told := Gapless.DataOn(x.system.world.stream.hist, y);
      told != [] && told[|told| - 1].IsData() && told[|told| - 1].SeqOf() == x.system.engine.snapshots[y].data.seqNo
  {
    var x := Run(log, me, BegunRaw(log, base, fallback), acts);
    RunDisturbs(log, base, fallback, Aggregation.Raw, DropOldestPolicy, me, acts, y);
    RunKeeps(log, base, fallback, Aggregation.Raw, DropOldestPolicy, me, acts);
    assert C.Composed(log, Aggregation.Raw, DropOldestPolicy, x.system) && Seated(x.hub, me, x.system.world.stream);
    assert G.Reachable(x.hub);
    hide Inv, Run, Spoils, Unspoiled, Gapless.DataOn, E.OneHome, C.Counted, E.Fits, Sequencing.OnSymbol, G.Reachable;
    G.RegistryAgrees(x.hub, me, y);
    C.SettledIsTold(log, x.system, y);
  }

  /** The registry names the client exactly where its stream expects it, and the gateway hears exactly the channels
      the world delivers: what the fan-out finds in the tables is what the stream takes in. */
  lemma TablesAndStreamAgree(log: Log, base: map<TopicPartition, nat>, fallback: map<TopicPartition, nat>,
                             mode: Aggregation.Mode, policy: Policy, me: R.Client, acts: seq<Act>, y: Symbol)
    requires E.OneHome(log) && C.Counted(log) && E.Fits(log, base)
    ensures var x := Run(log, me, Begun(log, base, fallback, mode, policy), acts);
      && (!HasLeft(x.hub, me) ==> (R.Has(x.hub.subscriptions, y, me) <==> y in x.system.world.stream.subscriptions))
      && (R.Has(x.hub.initializing, y, me) <==> Gapless.Joins(x.system.world.stream.joining, y))
      && (R.Heard(x.hub, y) <==> y in x.system.world.listening)
  {
    var x := Run(log, me, Begun(log, base, fallback, mode, policy), acts);
    RunKeeps(log, base, fallback, mode, policy, me, acts);
    assert Seated(x.hub, me, x.system.world.stream) && x.system.world.listening == Hears(x.hub);
    assert G.Reachable(x.hub);
    hide Inv, Run, E.OneHome, C.Counted, E.Fits, G.Reachable;
    G.RegistryAgrees(x.hub, me, y);
  }

  predicate ChannelFault(move: WorldStep) {
    move.Lose? || move.Duplicate? || move.Swap?
  }

  /** While no channel in use was ever given up, only a channel fault, the end of a connection, or the client's own
      unsubscribing or subscribing again can spoil a symbol it is subscribed to or being initialised for: no other
      client can. */
  lemma OthersSpoilNothing(log: Log, mode: Aggregation.Mode, policy: Policy, me: R.Client, x: Whole, act: Act,
                           y: Symbol)
    requires Inv(log, mode, policy, me, x) && G.AllWanted(x.hub) && Spoils(x, me, act, y)
    requires R.Has(x.hub.subscriptions, y, me) || R.Has(x.hub.initializing, y, me)
    ensures (act.WorldDoes? && ChannelFault(act.move))
      || (act.TablesDo? && (act.change.ListenEnds? || G.Mover(act.change) == Some(me)))
  {
    G.ReachableOk(x.hub);
    if act.TablesDo? && Silences(x.hub, act.change, y) && act.change.UnsubscribeAnswered? {
      NotDroppedInUse(x.hub, me, act.change.client, y);
    }
    if act.TablesDo? && Begins(x.hub, me, act.change, y) {
      G.OnlyChannelsInitialise(x.hub, act.change, me, y);
    }
    hide Begins, R.Step1, R.Heard, G.HubOk, C.Composed, G.Reachable, Hears;
  }

  lemma NotDroppedInUse(h: R.Hub, me: R.Client, c: R.Client, y: Symbol)
    requires G.HubOk(h) && G.AllWanted(h) && (R.Has(h.subscriptions, y, me) || R.Has(h.initializing, y, me))
    ensures !(R.CallOf(h.sessions, c).Dropping? && R.CallOf(h.sessions, c).symbol == y)
  {
    assert G.Wanted(h, y);
    hide G.RegistryOk, G.ChannelsOk;
  }
}
