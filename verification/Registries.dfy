/** The gateway's shared tables under concurrency: who is subscribed to what, which Pub/Sub channels are
    desired, confirmed and really subscribed, the lock that is held across Redis calls, the reconnecting
    fan-out loop, and every client's subscribe, unsubscribe and clean-up calls in progress. Each step is one
    stretch of code between two suspension points; Redis's answers are arbitrary, and a failed call may or
    may not have taken effect. A step that the current state does not allow changes nothing. */
module Registries {
  import opened Events

  const SUBSCRIBE_TRIES := 5

  datatype Client = Client(id: nat)

  /** Where a client's own task is. It has left in an orderly way, or abandoned everything. */
  datatype Call =
    | Idle
    | Ensuring(symbol: Symbol, tries: nat)
    | Asking(symbol: Symbol, tries: nat)
    | Fetching(symbol: Symbol)
    | Removing(todo: set<Symbol>, leaving: bool)
    | Dropping(symbol: Symbol, todo: set<Symbol>, leaving: bool)
    | Gone
    | Abandoned

  /** A session's own subscription set, its task, what its last subscribe call returned, and whether its
      dispatch loop died of a failed fetch. */
  datatype Member = Member(subscriptions: set<Symbol>, call: Call, result: Option<bool>, died: bool)

  datatype Loop = Waiting | Starting | Connecting | Listening | Failing

  datatype Holder = Fanout | Of(client: Client)

  type Registry = map<Symbol, set<Client>>

  /** `pubsub` is the current connection, if any, with the channels subscribed on it; it is read only while the
      loop is `Listening`. */
  datatype Hub = Hub(
    subscriptions: Registry,
    initializing: Registry,
    sessions: map<Client, Member>,
    active: set<Symbol>,
    confirmed: set<Symbol>,
    demand: bool,
    pubsub: Option<set<Symbol>>,
    lock: Option<Holder>,
    loop: Loop)

  datatype Step =
    | Connect(client: Client)
    | BeginSubscribe(client: Client, symbol: Symbol)
    | Try(client: Client)
    | SubscribeAnswered(client: Client, ok: bool, landed: bool)
    | GiveUp(client: Client)
    | SnapshotFails(client: Client)
    | Activate(client: Client)
    | BeginUnsubscribe(client: Client, symbol: Symbol)
    | DispatchDies(client: Client)
    | Disconnect(client: Client)
    | StartDrop(client: Client, symbol: Symbol)
    | UnsubscribeAnswered(client: Client, landed: bool)
    | DemandSeen
    | OpenConnection
    | ConnectAnswered(ok: bool, some: set<Symbol>)
    | ListenEnds(left: set<Symbol>)
    | Close

  const STARTED := Hub(map[], map[], map[], {}, {}, false, None, None, Waiting)

  // ---- registries ----

  predicate Has(r: Registry, y: Symbol, c: Client) {
    y in r && c in r[y]
  }

  /** Entering `c` under `y`. */
  function Entered(r: Registry, y: Symbol, c: Client): (after: Registry)
    ensures forall z, d :: Has(after, z, d) <==> Has(r, z, d) || (z == y && d == c)
    ensures NoneEmpty(r) ==> NoneEmpty(after)
  {
    r[y := (if y in r then r[y] else {}) + {c}]
  }

  /** Removing `c` from under `y`; an entry left empty goes. */
  function Struck(r: Registry, y: Symbol, c: Client): (after: Registry)
    ensures forall z, d :: Has(after, z, d) <==> Has(r, z, d) && !(z == y && d == c)
    ensures NoneEmpty(r) ==> NoneEmpty(after)
  {
    if y !in r then r
    else
      assert forall d :: d in r[y] - {c} <==> d in r[y] && d != c;
      if r[y] - {c} == {} then r - {y} else r[y := r[y] - {c}]
  }

  /** Removing `c` everywhere. */
  function StruckAll(r: Registry, c: Client): (after: Registry)
    ensures forall z, d :: Has(after, z, d) <==> Has(r, z, d) && d != c
    ensures NoneEmpty(after)
  {
    assert forall y, d :: y in r ==> (d in r[y] - {c} <==> d in r[y] && d != c);
    map y | y in r && r[y] - {c} != {} :: r[y] - {c}
  }

  predicate NoneEmpty(r: Registry) {
    forall y {:trigger y in r} | y in r :: r[y] != {}
  }

  // ---- the steps ----

  predicate InUse(h: Hub, y: Symbol) {
    y in h.subscriptions || y in h.initializing
  }

  function CallOf(sessions: map<Client, Member>, c: Client): Call {
    if c in sessions then sessions[c].call else Gone
  }

  predicate Leaving(call: Call) {
    call.Gone? || ((call.Removing? || call.Dropping?) && call.leaving)
  }

  predicate Departed(call: Call) {
    Leaving(call) || call.Abandoned?
  }

  /** A session that has not begun to leave has `y` in its own set. */
  predicate Subscribed(sessions: map<Client, Member>, c: Client, y: Symbol) {
    c in sessions && !Leaving(sessions[c].call) && y in sessions[c].subscriptions
  }

  function With(sessions: map<Client, Member>, c: Client, m: Member): (after: map<Client, Member>)
    ensures after == sessions[c := m]
    ensures forall d {:trigger CallOf(after, d)} :: CallOf(after, d) == if d == c then m.call else CallOf(sessions, d)
    ensures forall d, y {:trigger Subscribed(after, d, y)} ::
      Subscribed(after, d, y) <==>
        if d == c then !Leaving(m.call) && y in m.subscriptions else Subscribed(sessions, d, y)
  {
    sessions[c := m]
  }

  function Moved(h: Hub, c: Client, call: Call): (g: Hub)
    requires c in h.sessions
    ensures g == h.(sessions := g.sessions)
    ensures c in g.sessions && g.sessions[c] == h.sessions[c].(call := call)
  {
    h.(sessions := With(h.sessions, c, h.sessions[c].(call := call)))
  }

  /** What is left to unsubscribe, or the end of the call. */
  function Rest(todo: set<Symbol>, leaving: bool): Call {
    if todo != {} then Removing(todo, leaving) else if leaving then Gone else Idle
  }

  function Registered(h: Hub, c: Client, y: Symbol): (g: Hub)
    requires c in h.sessions
    ensures g == h.(sessions := g.sessions, initializing := g.initializing)
    ensures c in g.sessions && g.sessions[c] == h.sessions[c].(call := g.sessions[c].call)
  {
    Moved(h.(initializing := Entered(h.initializing, y, c)), c, Fetching(y))
  }

  /** The end of a subscribe call: the initialisation entry goes, and an unused channel is given up. */
  function Settled(h: Hub, c: Client, y: Symbol, result: bool): (after: Hub)
    requires c in h.sessions
    ensures after == h.(sessions := after.sessions, initializing := after.initializing)
  {
    var g := h.(initializing := Struck(h.initializing, y, c),
      sessions := With(h.sessions, c, h.sessions[c].(result := Some(result))));
    Moved(g, c, if InUse(g, y) then Idle else Removing({y}, false))
  }

  function Tried(h: Hub, c: Client, y: Symbol, tries: nat): (after: Hub)
    requires c in h.sessions
    ensures after.subscriptions == h.subscriptions
    ensures c in after.sessions && after.sessions[c] == h.sessions[c].(call := after.sessions[c].call)
  {
    var g := h.(active := h.active + {y}, demand := true);
    if y in h.confirmed then Registered(g, c, y)
    else if h.pubsub.None? then Moved(g, c, Ensuring(y, tries + 1))
    else Moved(g.(lock := Some(Of(c))), c, Asking(y, tries))
  }

  function SubscribeReturned(h: Hub, c: Client, y: Symbol, tries: nat, ok: bool, landed: bool): (after: Hub)
    requires c in h.sessions && h.pubsub.Some?
    ensures after.subscriptions == h.subscriptions
    ensures c in after.sessions && after.sessions[c] == h.sessions[c].(call := after.sessions[c].call)
  {
    var g := h.(lock := None, pubsub := if ok || landed then Some(h.pubsub.value + {y}) else h.pubsub);
    if ok then Registered(g.(confirmed := h.confirmed + {y}), c, y) else Moved(g, c, Ensuring(y, tries + 1))
  }

  function Activated(h: Hub, c: Client, y: Symbol): Hub
    requires c in h.sessions
  {
    Settled(h.(subscriptions := Entered(h.subscriptions, y, c),
               sessions := With(h.sessions, c, h.sessions[c].(subscriptions := h.sessions[c].subscriptions + {y}))), c,
                 y, true)
  }

  /** The registry part of unsubscribe; `should_unsubscribe` looks at subscribers alone. */
  function Unsubscribed(h: Hub, c: Client, y: Symbol): Hub
    requires c in h.sessions
  {
    var g := h.(subscriptions := Struck(h.subscriptions, y, c),
                sessions := With(h.sessions, c, h.sessions[c].(subscriptions := h.sessions[c].subscriptions - {y})));
    Moved(g, c, if y in g.subscriptions then Idle else Removing({y}, false))
  }

  /** The symbols a clean-up leaves without subscribers. */
  function LeftBehind(h: Hub, c: Client): (todo: set<Symbol>)
    requires c in h.sessions
    ensures forall y :: y in todo ==> y !in StruckAll(h.subscriptions, c)
    ensures forall y :: y in h.sessions[c].subscriptions && y !in StruckAll(h.subscriptions, c) ==> y in todo
  {
    var initialized := set y | y in h.initializing && y !in StruckAll(h.initializing, c) && y !in h.subscriptions;
    var subscribed := set y | y in h.sessions[c].subscriptions && y !in StruckAll(h.subscriptions, c);
    initialized + subscribed
  }

  /** The registry part of the clean-up; the session's own set is left as it is. */
  function CleanedUp(h: Hub, c: Client): Hub
    requires c in h.sessions
  {
    Moved(h.(subscriptions := StruckAll(h.subscriptions, c), initializing := StruckAll(h.initializing, c)), c,
      Rest(LeftBehind(h, c), true))
  }

  function Died(h: Hub, c: Client): (g: Hub)
    requires c in h.sessions
    ensures g == h.(sessions := g.sessions)
  {
    h.(sessions := With(h.sessions, c, h.sessions[c].(died := true)))
  }

  /** The end of the client's handler awaits its dispatch loop first. If that died, its exception comes up
      again there and the clean-up is never reached. */
  function Disconnected(h: Hub, c: Client): Hub
    requires c in h.sessions
  {
    if h.sessions[c].died then Moved(h, c, Abandoned) else CleanedUp(h, c)
  }

  function DropStarted(h: Hub, c: Client, y: Symbol, todo: set<Symbol>, leaving: bool): Hub
    requires c in h.sessions
  {
    if y !in h.active then Moved(h, c, Rest(todo - {y}, leaving))
    else
      var g := h.(active := h.active - {y}, confirmed := h.confirmed - {y},
                  demand := if h.active - {y} == {} then false else h.demand);
      if h.pubsub.None? then Moved(g, c, Rest(todo - {y}, leaving))
      else Moved(g.(lock := Some(Of(c))), c, Dropping(y, todo - {y}, leaving))
  }

  function DropReturned(h: Hub, c: Client, y: Symbol, todo: set<Symbol>, leaving: bool, landed: bool): Hub
    requires c in h.sessions && h.pubsub.Some?
  {
    Moved(h.(lock := None, pubsub := if landed then Some(h.pubsub.value - {y}) else h.pubsub), c, Rest(todo, leaving))
  }

  function Opened(h: Hub): Hub {
    var g := h.(pubsub := Some({}), confirmed := {});
    if h.active == {} then g.(loop := Listening) else g.(loop := Connecting, lock := Some(Fanout))
  }

  function ConnectReturned(h: Hub, ok: bool, some: set<Symbol>): Hub {
    if ok then h.(lock := None, loop := Listening, pubsub := Some(h.active), confirmed := h.confirmed + h.active)
    else h.(lock := None, loop := Failing, pubsub := Some(some * h.active))
  }

  /** Nobody reads the connection any more, and of the channels on it those in `left` are still subscribed: all
      of them after an error of the gateway's own, none after a lost connection. The tables stay until the
      connection is closed. */
  function Deafened(h: Hub, left: set<Symbol>): (g: Hub)
    ensures g == h.(loop := Failing, pubsub := g.pubsub)
  {
    h.(loop := Failing, pubsub := if h.pubsub.Some? then Some(left * h.pubsub.value) else None)
  }

  /** What is published on `y` now reaches the gateway's sessions. */
  predicate Heard(h: Hub, y: Symbol) {
    h.loop.Listening? && h.pubsub.Some? && y in h.pubsub.value
  }

  function Step1(h: Hub, step: Step): Hub {
    match step
    case Connect(c) => if c in h.sessions then h else h.(sessions := With(h.sessions, c, Member({}, Idle, None, false)))
    case BeginSubscribe(c, y) => if CallOf(h.sessions, c).Idle? then Moved(h, c, Ensuring(y, 0)) else h
    case Try(c) =>
      (match CallOf(h.sessions, c)
       case Ensuring(y, tries) => if tries < SUBSCRIBE_TRIES && h.lock.None? then Tried(h, c, y, tries) else h
       case _ => h)
    case SubscribeAnswered(c, ok, landed) =>
      (match CallOf(h.sessions, c)
       case Asking(y, tries) => if h.pubsub.Some? then SubscribeReturned(h, c, y, tries, ok, landed) else h
       case _ => h)
    case GiveUp(c) =>
      (match CallOf(h.sessions, c)
       case Ensuring(y, tries) => if tries < SUBSCRIBE_TRIES then h else Settled(h, c, y, false)
       case _ => h)
    case SnapshotFails(c) =>
      (match CallOf(h.sessions, c)
       case Fetching(y) => Settled(h, c, y, false)
       case _ => h)
    case Activate(c) =>
      (match CallOf(h.sessions, c)
       case Fetching(y) => Activated(h, c, y)
       case _ => h)
    case BeginUnsubscribe(c, y) => if CallOf(h.sessions, c).Idle? then Unsubscribed(h, c, y) else h
    case DispatchDies(c) => if Departed(CallOf(h.sessions, c)) then h else Died(h, c)
    case Disconnect(c) => if CallOf(h.sessions, c).Idle? then Disconnected(h, c) else h
    case StartDrop(c, y) =>
      (match CallOf(h.sessions, c)
       case Removing(todo, leaving) => if y in todo && h.lock.None? then DropStarted(h, c, y, todo, leaving) else h
       case _ => h)
    case UnsubscribeAnswered(c, landed) =>
      (match CallOf(h.sessions, c)
       case Dropping(y, todo, leaving) => if h.pubsub.Some? then DropReturned(h, c, y, todo, leaving, landed) else h
       case _ => h)
    case DemandSeen => if h.loop.Waiting? && h.demand then h.(loop := Starting) else h
    case OpenConnection => if h.loop.Starting? && h.lock.None? then Opened(h) else h
    case ConnectAnswered(ok, some) => if h.loop.Connecting? then ConnectReturned(h, ok, some) else h
    case ListenEnds(left) => if h.loop.Listening? then Deafened(h, left) else h
    case Close => if h.loop.Failing? && h.lock.None? then h.(loop := Waiting, pubsub := None, confirmed := {}) else h
  }

  function Run(steps: seq<Step>): Hub {
    if steps == [] then STARTED else Step1(Run(steps[..|steps| - 1]), steps[|steps| - 1])
  }
}
