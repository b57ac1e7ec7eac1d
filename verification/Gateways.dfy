/** The gateway's shared objects: the tables, and the sessions they name. Each method is one stretch between
    two suspension points, at once one step of the tables and one step of the streams of the sessions that it
    touches. */
module Gateways {
  import opened Events
  import opened Sequencing
  import opened Aggregation
  import opened Session
  import opened Streams
  import opened ClientSessions
  import R = Registries
  import G = RegistryGuarantees

  /** A session and what the tables say of its client. */
  ghost predicate Linked(members: map<R.Client, R.Member>, c: R.Client, s: ClientSession)
    reads s
  {
    && s.Valid() && c in members && !R.Leaving(members[c].call) && members[c].subscriptions == s.subscriptions
    && (members[c].call.Fetching? <==> !s.task.NoTask?)
    && (members[c].call.Fetching? ==> members[c].call.symbol == s.task.symbol)
    && (members[c].died <==> s.dispatch.Dead?)
  }

  lemma LinkedAlike(was: map<R.Client, R.Member>, members: map<R.Client, R.Member>, c: R.Client, s: ClientSession)
    requires Linked(was, c, s) && c in members && members[c] == was[c]
    ensures Linked(members, c, s)
  {
  }

  /** Sessions share no objects. */
  ghost predicate Apart(s: ClientSession, t: ClientSession)
    reads s, t
  {
    s.Footprint() !! t.Footprint()
  }

  lemma SameRegistry(r: R.Registry, q: R.Registry)
    requires R.NoneEmpty(r) && R.NoneEmpty(q) && forall y, c :: R.Has(r, y, c) <==> R.Has(q, y, c)
    ensures r == q
  {
    forall y ensures y in r <==> y in q {
      if y in r {
        var c :| c in r[y];
        assert R.Has(r, y, c);
      }
      if y in q {
        var c :| c in q[y];
        assert R.Has(q, y, c);
      }
    }
    forall y | y in r ensures r[y] == q[y] {
      forall c ensures c in r[y] <==> c in q[y] {
        assert R.Has(r, y, c) <==> R.Has(q, y, c);
      }
    }
  }

  lemma LeftBehindIs(h: R.Hub, c: R.Client, initialized: set<Symbol>, subscribed: set<Symbol>)
    requires c in h.sessions
    requires forall y :: y in initialized <==>
      y in h.initializing && y !in R.StruckAll(h.initializing, c) && y !in h.subscriptions
    requires forall y :: y in subscribed <==> y in h.sessions[c].subscriptions && y !in R.StruckAll(h.subscriptions, c)
    ensures initialized + subscribed == R.LeftBehind(h, c)
  {
    hide R.StruckAll;
  }

  // ---- a delivery, in the order of the code ----

  function NotedBy(s: Stream, e: MarketEvent): Stream {
    s.(joining := NotedIn(s.joining, e))
  }

  function NotedIf(noted: bool, s: Stream, e: MarketEvent): Stream {
    if noted then NotedBy(s, e) else s
  }

  function PushedTo(s: Stream, e: MarketEvent): Stream {
    s.(aggregator := Pushed(s.aggregator, e), overflowed := s.overflowed
      || (s.aggregator.mode.Raw? && Overflows(s.aggregator, 1)))
  }

  lemma DeliveredInParts(s: Stream, e: MarketEvent)
    ensures Delivered(s, e) == if e.symbol in s.subscriptions then PushedTo(NotedBy(s, e), e) else NotedBy(s, e)
  {
    hide Pushed, NotedIn;
  }

  lemma DropIsAStep(h: R.Hub, c: R.Client, y: Symbol, todo: set<Symbol>, leaving: bool)
    requires R.CallOf(h.sessions, c) == R.Removing(todo, leaving) && y in todo && h.lock.None?
    ensures R.Step1(h, R.StartDrop(c, y)) == R.DropStarted(h, c, y, todo, leaving)
    ensures KeepsItsPlace(h.sessions, R.DropStarted(h, c, y, todo, leaving).sessions, c)
  {
    DropKeepsItsPlace(h, c, y, todo, leaving);
    hide R.DropStarted, KeepsItsPlace;
  }

  lemma DropKeepsItsPlace(h: R.Hub, c: R.Client, y: Symbol, todo: set<Symbol>, leaving: bool)
    requires R.CallOf(h.sessions, c) == R.Removing(todo, leaving)
    ensures KeepsItsPlace(h.sessions, R.DropStarted(h, c, y, todo, leaving).sessions, c)
  {
    hide R.With;
  }

  /** The client's subscriptions are what they were, it leaves if it did before, and it is initialising
      nothing. */
  predicate KeepsItsPlace(was: map<R.Client, R.Member>, members: map<R.Client, R.Member>, c: R.Client) {
    && c in was && c in members && members[c].subscriptions == was[c].subscriptions && members[c].died == was[c].died
    && R.Leaving(members[c].call) == R.Leaving(was[c].call) && !members[c].call.Fetching? && !was[c].call.Fetching?
  }

  class Gateway {
    var subscriptions: R.Registry
    var initializing: R.Registry
    var activeChannels: set<Symbol>
    var confirmedChannels: set<Symbol>
    var channelDemand: bool
    var redisPubsub: Option<set<Symbol>>
    var pubsubLock: Option<R.Holder>
    var fanout: R.Loop
    var allSessions: map<R.Client, ClientSession>

    /** Where every client's own task is, and what its last subscribe returned. */
    ghost var members: map<R.Client, R.Member>

    ghost function Tables(): R.Hub
      reads this
    {
      R.Hub(subscriptions, initializing, members, activeChannels, confirmedChannels, channelDemand, redisPubsub,
        pubsubLock, fanout)
    }

    ghost function Sessions(): set<object>
      reads this
    {
      set c | c in allSessions :: allSessions[c]
    }

    ghost function Aggregators(): set<object>
      reads this, Sessions()
    {
      set c | c in allSessions :: allSessions[c].aggregator
    }

    ghost function Buffers(): set<object>
      reads this, Sessions()
    {
      set c | c in allSessions && !allSessions[c].task.NoTask? :: allSessions[c].task.initialization
    }

    ghost predicate Valid()
      reads this, Sessions()
    {
      && G.HubOk(Tables()) && G.DiedOk(members)
      && (forall c | c in allSessions :: Linked(members, c, allSessions[c]))
      && (forall c, d | c in allSessions && d in allSessions && c != d :: Apart(allSessions[c], allSessions[d]))
      && (forall c | c in members && !R.Leaving(members[c].call) :: c in allSessions)
    }

    constructor ()
      ensures Valid() && Tables() == R.STARTED && allSessions == map[]
    {
      subscriptions, initializing, activeChannels, confirmedChannels, channelDemand := map[], map[], {}, {}, false;
      redisPubsub, pubsubLock, fanout, allSessions, members := None, None, R.Waiting, map[], map[];
      new;
      G.RunKeeps([]);
    }

    /** Everyone a registry names has a session. */
    lemma EntriesAreSessions(y: Symbol)
      requires Valid()
      ensures y in subscriptions ==> subscriptions[y] <= allSessions.Keys
      ensures y in initializing ==> initializing[y] <= allSessions.Keys
      ensures forall c | c in allSessions ::
        && (y in subscriptions && c in subscriptions[y] <==> y in allSessions[c].subscriptions)
        && (y in initializing && c in initializing[y] <==>
             !allSessions[c].task.NoTask? && allSessions[c].task.symbol == y)
    {
      forall c ensures y in subscriptions && c in subscriptions[y] ==> c in allSessions {
        assert R.Has(subscriptions, y, c) <==> R.Subscribed(members, c, y);
      }
      forall c ensures y in initializing && c in initializing[y] ==> c in allSessions {
        assert R.Has(initializing, y, c) <==> R.CallOf(members, c) == R.Fetching(y);
      }
      forall c | c in allSessions
        ensures y in subscriptions && c in subscriptions[y] <==> y in allSessions[c].subscriptions
        ensures y in initializing && c in initializing[y] <==>
          !allSessions[c].task.NoTask? && allSessions[c].task.symbol == y
      {
        assert Linked(members, c, allSessions[c]);
        assert R.Has(subscriptions, y, c) <==> R.Subscribed(members, c, y);
        assert R.Has(initializing, y, c) <==> R.CallOf(members, c) == R.Fetching(y);
      }
    }

    // ---- fan-out ----

    method NoteOne(c: R.Client, e: MarketEvent)
      requires Valid() && c in allSessions && !allSessions[c].task.NoTask? && allSessions[c].task.symbol == e.symbol
      modifies allSessions[c].task.initialization
      ensures Valid()
      ensures allSessions[c].View() == NotedBy(old(allSessions[c].View()), e)
      ensures forall d | d in allSessions && d != c :: allSessions[d].View() == old(allSessions[d].View())
    {
      hide ClientSession.View, G.HubOk, NotedIn, Linked;
      forall d | d in allSessions && d != c ensures allSessions[c].task.initialization !in allSessions[d].Footprint() {
        assert Apart(allSessions[c], allSessions[d]);
      }
      hide Apart, ClientSession.Footprint;
      allSessions[c].NoteEvent(e);
    }

    method PushOne(c: R.Client, e: MarketEvent)
      requires Valid() && c in allSessions
      modifies allSessions[c], allSessions[c].aggregator
      ensures Valid()
      ensures allSessions[c].View() == PushedTo(old(allSessions[c].View()), e)
      ensures forall d | d in allSessions && d != c :: allSessions[d].View() == old(allSessions[d].View())
    {
      hide ClientSession.View, ClientSession.Valid, G.HubOk, G.DiedOk, PushedTo, Linked;
      var s := allSessions[c];
      assert s.aggregator in s.Footprint() && s in s.Footprint();
      hide ClientSession.Footprint;
      forall d | d in allSessions && d != c ensures s !in allSessions[d].Footprint()
        && s.aggregator !in allSessions[d].Footprint() {
        assert Apart(s, allSessions[d]);
      }
      PushEventTo(c, s, e);
      forall d, f | d in allSessions && f in allSessions && d != f ensures Apart(allSessions[d], allSessions[f]) {
        assert old(Apart(allSessions[d], allSessions[f]));
      }
      hide Apart;
    }

    method PushEventTo(c: R.Client, s: ClientSession, e: MarketEvent)
      requires Linked(members, c, s)
      modifies s, s.aggregator
      ensures Linked(members, c, s) && s.Footprint() == old(s.Footprint())
      ensures s.View() == PushedTo(old(s.View()), e)
    {
      hide Pushed;
      s.PushEvent(e);
    }

    /** The events of the initialising sessions' buffers, in whatever order the sessions come. */
    method NoteAll(initializations: set<R.Client>, e: MarketEvent)
      requires Valid() && initializations <= allSessions.Keys
      requires forall c | c in initializations :: !allSessions[c].task.NoTask? && allSessions[c].task.symbol == e.symbol
      modifies set c | c in initializations :: allSessions[c].task.initialization
      ensures Valid()
      ensures forall c | c in allSessions ::
        allSessions[c].View() == NotedIf(c in initializations, old(allSessions[c].View()), e)
    {
      hide Valid, ClientSession.View, NotedBy;
      var todo := initializations;
      while todo != {}
        invariant todo <= initializations && Valid()
        invariant forall c | c in allSessions ::
          allSessions[c].View() == NotedIf(c in initializations - todo, old(allSessions[c].View()), e)
        decreases |todo|
      {
        var c :| c in todo;
        NoteOne(c, e);
        todo := todo - {c};
      }
    }

    method PushAllOf(sessions: set<R.Client>, e: MarketEvent)
      requires Valid() && sessions <= allSessions.Keys
      modifies set c | c in sessions :: allSessions[c], set c | c in sessions :: allSessions[c].aggregator
      ensures Valid()
      ensures forall c | c in allSessions ::
        allSessions[c].View() == (if c in sessions then PushedTo(old(allSessions[c].View()), e)
          else old(allSessions[c].View()))
    {
      hide Valid, ClientSession.View, PushedTo;
      var todo := sessions;
      while todo != {}
        invariant todo <= sessions && Valid()
        invariant forall c | c in allSessions ::
          allSessions[c].View() == (if c in sessions - todo then PushedTo(old(allSessions[c].View()), e)
            else old(allSessions[c].View()))
        decreases |todo|
      {
        var c :| c in todo;
        PushOne(c, e);
        todo := todo - {c};
      }
    }

    function Under(r: R.Registry, y: Symbol): set<R.Client> {
      if y in r then r[y] else {}
    }

    /** What the tables say about one event. */
    lemma Addressed(e: MarketEvent)
      requires Valid()
      ensures Under(subscriptions, e.symbol) <= allSessions.Keys && Under(initializing, e.symbol) <= allSessions.Keys
      ensures forall c | c in Under(initializing, e.symbol) ::
        !allSessions[c].task.NoTask? && allSessions[c].task.symbol == e.symbol
      ensures forall c | c in allSessions :: c in Under(subscriptions, e.symbol) <==>
        e.symbol in allSessions[c].View().subscriptions
      ensures forall c | c in allSessions && c !in Under(initializing, e.symbol) ::
        NotedBy(allSessions[c].View(), e) == allSessions[c].View()
    {
      EntriesAreSessions(e.symbol);
    }

    /** A published event reaches every session that is subscribed to its symbol or initialising it, and no
        other: one stretch, so no table changes in between. */
    method FanoutEvent(e: MarketEvent)
      requires Valid()
      modifies Sessions(), Aggregators(), Buffers()
      ensures Valid() && allSessions == old(allSessions)
      ensures forall c | c in allSessions :: allSessions[c].View() == Delivered(old(allSessions[c].View()), e)
    {
      hide Valid, ClientSession.View, Under, Delivered, NotedBy, PushedTo;
      var sessions := Under(subscriptions, e.symbol);
      var initializations := Under(initializing, e.symbol);
      Addressed(e);
      forall c | c in allSessions
        ensures var s := allSessions[c].View();
          Delivered(s, e) == if e.symbol in s.subscriptions then PushedTo(NotedBy(s, e), e) else NotedBy(s, e)
      {
        DeliveredInParts(allSessions[c].View(), e);
      }
      NoteAll(initializations, e);
      PushAllOf(sessions, e);
    }

    // ---- the subscribe call ----

    /** One step of `c`'s own task keeps everything linked, if it does so for `c`. */
    lemma StaysValid(was: R.Hub, c: R.Client, step: R.Step)
      requires G.HubOk(was) && G.DiedOk(was.sessions) && Tables() == R.Step1(was, step) && G.Mover(step) == Some(c)
      requires forall d | d in allSessions && d != c :: Linked(was.sessions, d, allSessions[d])
      requires forall d | d in was.sessions && d != c && !R.Leaving(was.sessions[d].call) :: d in allSessions
      requires c in allSessions ==> Linked(members, c, allSessions[c])
      requires c in members && !R.Leaving(members[c].call) ==> c in allSessions
      requires forall d, e | d in allSessions && e in allSessions && d != e :: Apart(allSessions[d], allSessions[e])
      ensures Valid()
    {
      G.StepKeeps(was, step);
      G.StepKeepsDied(was, step);
      forall d | d != c ensures (d in members <==> d in was.sessions)
        && (d in members ==> members[d] == was.sessions[d]) {
        G.OthersStay(was, step, d);
      }
      forall d | d in allSessions && d != c ensures Linked(members, d, allSessions[d]) {
        LinkedAlike(was.sessions, members, d, allSessions[d]);
      }
      hide G.HubOk, G.DiedOk, R.Step1, Apart, Linked;
    }

    lemma Separate(c: R.Client)
      requires Valid() && c in allSessions
      ensures Linked(members, c, allSessions[c]) && this !in allSessions[c].Footprint()
      ensures forall d | d in allSessions && d != c :: allSessions[c] != allSessions[d]
    {
      hide G.HubOk, G.DiedOk, Linked;
      forall d | d in allSessions && d != c ensures allSessions[c] != allSessions[d] {
        assert Apart(allSessions[c], allSessions[d]);
      }
    }

    lemma AskingHasConnection(c: R.Client)
      requires Valid()
      ensures R.CallOf(members, c).Asking? || R.CallOf(members, c).Dropping? ==> redisPubsub.Some?
    {
      hide G.RegistryOk, Linked, Apart;
    }

    /** `_subscribe_pubsub_symbol` up to the answer of Redis, if it has to be asked. */
    method TryChannel(c: R.Client, y: Symbol, ghost tries: nat) returns (confirmed: bool)
      requires R.CallOf(members, c) == R.Ensuring(y, tries) && tries < R.SUBSCRIBE_TRIES && pubsubLock.None?
      modifies this
      ensures Tables() == R.Step1(old(Tables()), R.Try(c)) && allSessions == old(allSessions)
      ensures confirmed == (y in old(confirmedChannels)) && c in members && !R.Leaving(members[c].call)
      ensures members[c].subscriptions == old(members)[c].subscriptions && members[c].died == old(members)[c].died
      ensures if confirmed then members[c].call == R.Fetching(y) else !members[c].call.Fetching?
    {
      members := R.Step1(Tables(), R.Try(c)).sessions;
      activeChannels := activeChannels + {y};
      channelDemand := true;
      confirmed := y in confirmedChannels;
      if confirmed {
        initializing := initializing[y := Under(initializing, y) + {c}];
      } else if redisPubsub.Some? {
        pubsubLock := Some(R.Of(c));
      }
    }

    /** One try of the subscribe call: a confirmed channel goes straight on to the initialisation. */
    method TrySubscribe(c: R.Client, y: Symbol, filter: Option<Filter>, ghost tries: nat)
      requires Valid() && c in allSessions && R.CallOf(members, c) == R.Ensuring(y, tries) && tries < R.SUBSCRIBE_TRIES
        && pubsubLock.None?
      modifies this, allSessions[c]
      ensures Valid() && allSessions == old(allSessions)
      ensures Tables() == R.Step1(old(Tables()), R.Try(c))
      ensures allSessions[c].View() ==
              if y in old(confirmedChannels) then Step1(old(allSessions[c].View()), Join(y, filter))
              else old(allSessions[c].View())
    {
      hide G.HubOk, G.DiedOk, ClientSession.View, R.Step1, Step1, ClientSession.Valid;
      var s := allSessions[c];
      assert Linked(members, c, s);
      assert this !in s.Footprint();
      forall d | d in allSessions && d != c ensures s != allSessions[d] {
        assert Apart(s, allSessions[d]);
      }
      ghost var was := Tables();
      var confirmed := TryChannel(c, y, tries);
      if confirmed {
        s.BeginSubscribe(y, filter);
      }
      assert Linked(members, c, s);
      forall d | d in allSessions && d != c ensures Apart(s, allSessions[d]) && Apart(allSessions[d], s) {
        assert old(Apart(s, allSessions[d]) && Apart(allSessions[d], s));
      }
      hide Apart, Linked;
      StaysValid(was, c, R.Try(c));
    }

    /** The answer of Redis to a subscribe of the channel; a failed one may have landed. */
    method ChannelAnswered(c: R.Client, y: Symbol, ghost tries: nat, ok: bool, landed: bool)
      requires R.CallOf(members, c) == R.Asking(y, tries) && redisPubsub.Some?
      modifies this
      ensures Tables() == R.Step1(old(Tables()), R.SubscribeAnswered(c, ok, landed)) && allSessions == old(allSessions)
      ensures c in members && !R.Leaving(members[c].call) && members[c].subscriptions == old(members)[c].subscriptions
        && members[c].died == old(members)[c].died
      ensures if ok then members[c].call == R.Fetching(y) else !members[c].call.Fetching?
    {
      members := R.Step1(Tables(), R.SubscribeAnswered(c, ok, landed)).sessions;
      if ok || landed {
        redisPubsub := Some(redisPubsub.value + {y});
      }
      if ok {
        confirmedChannels := confirmedChannels + {y};
        initializing := initializing[y := Under(initializing, y) + {c}];
      }
      pubsubLock := None;
    }

    method SubscribeAnswered(c: R.Client, y: Symbol, filter: Option<Filter>, ghost tries: nat, ok: bool, landed: bool)
      requires Valid() && c in allSessions && R.CallOf(members, c) == R.Asking(y, tries)
      modifies this, allSessions[c]
      ensures Valid() && allSessions == old(allSessions)
      ensures Tables() == R.Step1(old(Tables()), R.SubscribeAnswered(c, ok, landed))
      ensures allSessions[c].View() == if ok then Step1(old(allSessions[c].View()), Join(y, filter))
        else old(allSessions[c].View())
    {
      hide G.HubOk, G.DiedOk, ClientSession.View, R.Step1, Step1, ClientSession.Valid;
      AskingHasConnection(c);
      var s := allSessions[c];
      assert Linked(members, c, s);
      assert this !in s.Footprint();
      forall d | d in allSessions && d != c ensures s != allSessions[d] {
        assert Apart(s, allSessions[d]);
      }
      ghost var was := Tables();
      ChannelAnswered(c, y, tries, ok, landed);
      if ok {
        s.BeginSubscribe(y, filter);
      }
      assert Linked(members, c, s);
      forall d | d in allSessions && d != c ensures Apart(s, allSessions[d]) && Apart(allSessions[d], s) {
        assert old(Apart(s, allSessions[d]) && Apart(allSessions[d], s));
      }
      hide Apart, Linked;
      StaysValid(was, c, R.SubscribeAnswered(c, ok, landed));
    }

    /** The end of a subscribe call: the initialisation entry goes, and whether the symbol is in use decides
        about its channel. */
    method Settle(c: R.Client, y: Symbol, ghost result: bool) returns (inUse: bool)
      requires c in members
      modifies this
      ensures Tables() == R.Settled(old(Tables()), c, y, result) && allSessions == old(allSessions)
      ensures inUse == R.InUse(Tables(), y)
      ensures c in members && !R.Leaving(members[c].call) && !members[c].call.Fetching?
      ensures members[c].subscriptions == old(members)[c].subscriptions && members[c].died == old(members)[c].died
    {
      members := R.Settled(Tables(), c, y, result).sessions;
      if y in initializing {
        var left := initializing[y] - {c};
        if left == {} {
          initializing := initializing - {y};
        } else {
          initializing := initializing[y := left];
        }
      }
      inUse := y in subscriptions || y in initializing;
    }

    /** After the last try. */
    method GiveUpSubscribe(c: R.Client, y: Symbol, ghost tries: nat, reason: string)
      requires Valid() && c in allSessions && R.CallOf(members, c) == R.Ensuring(y, tries) && tries >= R.SUBSCRIBE_TRIES
      modifies this, allSessions[c]
      ensures Valid() && allSessions == old(allSessions)
      ensures Tables() == R.Step1(old(Tables()), R.GiveUp(c))
      ensures allSessions[c].View() == Offered(old(allSessions[c].View()), Notice(reason))
    {
      hide G.HubOk, G.DiedOk, ClientSession.View, ClientSession.Valid, R.Settled, Offered, WireStep1;
      var s := allSessions[c];
      Separate(c);
      ghost var was := Tables();
      var accepted := s.EnqueueMessage(Notice(reason));
      assert this !in s.Footprint();
      var inUse := Settle(c, y, false);
      assert Tables() == R.Step1(was, R.GiveUp(c));
      hide R.Step1;
      StaysValid(was, c, R.GiveUp(c));
    }

    /** Redis answered with the snapshot, or with nothing stored. */
    method SnapshotReturned(c: R.Client, snapshot: Option<SnapshotData>)
      requires Valid() && c in allSessions && allSessions[c].task.AwaitingSnapshot?
        && SnapshotFor(snapshot, allSessions[c].task.symbol)
      modifies allSessions[c]
      ensures Valid() && allSessions[c].View() == Step1(old(allSessions[c].View()), ReadSnapshot(snapshot))
    {
      hide G.HubOk, G.DiedOk, ClientSession.View, ClientSession.Valid, Step1;
      var s := allSessions[c];
      forall d | d in allSessions && d != c ensures s != allSessions[d] {
        assert Apart(s, allSessions[d]);
      }
      ghost var footprint := s.Footprint();
      s.SnapshotReturned(snapshot);
      assert s.Footprint() == footprint;
    }

    /** The fetch failed, or the call cannot go on. */
    method FailSubscribe(c: R.Client, y: Symbol, reason: string)
      requires Valid() && c in allSessions && R.CallOf(members, c) == R.Fetching(y)
      modifies this, allSessions[c]
      ensures Valid() && allSessions == old(allSessions)
      ensures Tables() == R.Step1(old(Tables()), R.SnapshotFails(c))
      ensures allSessions[c].View() == JoinFailed(old(allSessions[c].View()), reason)
    {
      hide G.HubOk, G.DiedOk, ClientSession.View, ClientSession.Valid, R.Settled, JoinFailed;
      var s := allSessions[c];
      Separate(c);
      ghost var was := Tables();
      s.SubscribeFailed(reason);
      assert this !in s.Footprint();
      var inUse := Settle(c, y, false);
      assert Tables() == R.Step1(was, R.SnapshotFails(c));
      hide R.Step1;
      StaysValid(was, c, R.SnapshotFails(c));
    }

    /** The subscriber's registry entry, and the end of the call. */
    method Register(c: R.Client, y: Symbol)
      requires c in members
      modifies this
      ensures Tables() == R.Activated(old(Tables()), c, y) && allSessions == old(allSessions)
      ensures c in members && !R.Leaving(members[c].call) && !members[c].call.Fetching?
      ensures members[c].subscriptions == old(members)[c].subscriptions + {y} && members[c].died == old(members)[c].died
    {
      hide R.Settled, R.Entered;
      subscriptions := Enter(subscriptions, y, c);
      members := R.With(members, c, members[c].(subscriptions := members[c].subscriptions + {y}));
      var inUse := Settle(c, y, true);
    }

    function Enter(r: R.Registry, y: Symbol, c: R.Client): (after: R.Registry)
      ensures after == R.Entered(r, y, c)
    {
      r[y := Under(r, y) + {c}]
    }

    /** However the hand-off ends, so do the tables. */
    method EndSubscribe(c: R.Client, y: Symbol, active: bool)
      requires R.CallOf(members, c) == R.Fetching(y)
      modifies this
      ensures Tables() == R.Step1(old(Tables()), if active then R.Activate(c) else R.SnapshotFails(c))
        && allSessions == old(allSessions)
      ensures c in members && !R.Leaving(members[c].call) && !members[c].call.Fetching?
        && members[c].died == old(members)[c].died
      ensures members[c].subscriptions == old(members)[c].subscriptions + if active then {y} else {}
    {
      hide R.Settled, R.Activated;
      if active {
        Register(c, y);
      } else {
        var inUse := Settle(c, y, false);
      }
    }

    /** Hand-off: in one stretch the session becomes active and its client a subscriber, or the call fails and
        the registry is as it was. */
    method CompleteSubscribe(c: R.Client, y: Symbol) returns (active: bool)
      requires Valid() && c in allSessions && R.CallOf(members, c) == R.Fetching(y)
        && allSessions[c].task.SnapshotArrived?
      modifies this, allSessions[c], allSessions[c].aggregator
      ensures Valid() && allSessions == old(allSessions)
      ensures allSessions[c].View() == Activated(old(allSessions[c].View()))
      ensures active <==>
        !old(allSessions[c].task.initialization.overflowed)
        && (old(allSessions[c].task).snapshot.None? || Accepts(old(allSessions[c].Out())))
      ensures Tables() == R.Step1(old(Tables()), if active then R.Activate(c) else R.SnapshotFails(c))
    {
      hide G.HubOk, G.DiedOk, ClientSession.View, ClientSession.Valid, R.Step1, Activated, Accepts;
      var s := allSessions[c];
      assert Linked(members, c, s);
      assert this !in s.Footprint() && s in s.Footprint() && s.aggregator in s.Footprint();
      hide ClientSession.Footprint;
      forall d | d in allSessions && d != c ensures s !in allSessions[d].Footprint()
        && s.aggregator !in allSessions[d].Footprint() {
        assert Apart(s, allSessions[d]);
      }
      ghost var was := Tables();
      active := s.FinishSubscribe();
      EndSubscribe(c, y, active);
      assert Linked(members, c, s);
      forall d, f | d in allSessions && f in allSessions && d != f ensures Apart(allSessions[d], allSessions[f]) {
        assert old(Apart(allSessions[d], allSessions[f]));
      }
      hide Apart, Linked;
      StaysValid(was, c, if active then R.Activate(c) else R.SnapshotFails(c));
    }

    // ---- unsubscribe, clean-up, and the removal of channels ----

    /** Takes `c` out from under `y`; an entry left empty goes. */
    method Strike(c: R.Client, y: Symbol)
      modifies this`subscriptions
      ensures subscriptions == R.Struck(old(subscriptions), y, c)
    {
      if y in subscriptions {
        var left := subscriptions[y] - {c};
        if left == {} {
          subscriptions := subscriptions - {y};
        } else {
          subscriptions := subscriptions[y := left];
        }
      }
    }

    method Unregister(c: R.Client, y: Symbol) returns (shouldUnsubscribe: bool)
      requires R.CallOf(members, c).Idle?
      modifies this
      ensures Tables() == R.Step1(old(Tables()), R.BeginUnsubscribe(c, y)) && allSessions == old(allSessions)
      ensures shouldUnsubscribe == (y !in subscriptions)
      ensures c in members && !R.Leaving(members[c].call) && !members[c].call.Fetching?
      ensures members[c].subscriptions == old(members)[c].subscriptions - {y} && members[c].died == old(members)[c].died
    {
      hide R.Struck;
      members := R.Unsubscribed(Tables(), c, y).sessions;
      Strike(c, y);
      shouldUnsubscribe := y !in subscriptions;
    }

    /** The registry part; without a subscriber left the channel is about to be given up. */
    method Unsubscribe(c: R.Client, y: Symbol) returns (shouldUnsubscribe: bool)
      requires Valid() && c in allSessions && R.CallOf(members, c).Idle?
      modifies this, allSessions[c]
      ensures Valid() && allSessions == old(allSessions)
      ensures Tables() == R.Step1(old(Tables()), R.BeginUnsubscribe(c, y)) && shouldUnsubscribe == (y !in subscriptions)
      ensures allSessions[c].View() == Left(old(allSessions[c].View()), y)
    {
      hide G.HubOk, G.DiedOk, ClientSession.View, ClientSession.Valid, R.Step1, Left;
      var s := allSessions[c];
      Separate(c);
      ghost var was := Tables();
      shouldUnsubscribe := Unregister(c, y);
      assert this !in s.Footprint();
      s.Forget(y);
      StaysValid(was, c, R.BeginUnsubscribe(c, y));
    }

    /** The first loop of the clean-up, over everything that is being initialised. */
    method StrikeInitializations(c: R.Client) returns (emptied: set<Symbol>)
      requires R.NoneEmpty(initializing)
      modifies this`initializing
      ensures initializing == R.StruckAll(old(initializing), c)
      ensures forall y :: y in emptied <==> y in old(initializing) && y !in initializing && y !in subscriptions
    {
      hide R.StruckAll;
      ghost var was := initializing;
      var symbols := initializing.Keys;
      emptied := {};
      while symbols != {}
        invariant symbols <= was.Keys && R.NoneEmpty(initializing)
        invariant forall y | y in symbols :: y in initializing && initializing[y] == was[y]
        invariant forall y, d :: R.Has(initializing, y, d) <==> R.Has(was, y, d) && !(d == c && y !in symbols)
        invariant forall y :: y in emptied <==> y in was && y !in symbols && y !in initializing && y !in subscriptions
        decreases |symbols|
      {
        var y :| y in symbols;
        var left := initializing[y] - {c};
        assert forall d :: d in left <==> d in was[y] && d != c;
        if left == {} {
          initializing := initializing - {y};
          if y !in subscriptions {
            emptied := emptied + {y};
          }
        } else {
          initializing := initializing[y := left];
        }
        symbols := symbols - {y};
      }
      SameRegistry(initializing, R.StruckAll(was, c));
    }

    /** The second loop, over the session's own symbols. */
    method StrikeEverywhere(c: R.Client, symbols: set<Symbol>) returns (emptied: set<Symbol>)
      requires R.NoneEmpty(subscriptions) && forall y :: R.Has(subscriptions, y, c) ==> y in symbols
      modifies this`subscriptions
      ensures subscriptions == R.StruckAll(old(subscriptions), c)
      ensures forall y :: y in emptied <==> y in symbols && y !in subscriptions
    {
      ghost var was := subscriptions;
      var todo := symbols;
      emptied := {};
      while todo != {}
        invariant todo <= symbols && R.NoneEmpty(subscriptions)
        invariant forall y, d :: R.Has(subscriptions, y, d) <==> R.Has(was, y, d) && !(d == c && y in symbols - todo)
        invariant forall y :: y in emptied <==> y in symbols - todo && y !in subscriptions
        decreases |todo|
      {
        var y :| y in todo;
        hide R.Has, R.Struck;
        Strike(c, y);
        if y !in subscriptions {
          emptied := emptied + {y};
        }
        todo := todo - {y};
      }
      SameRegistry(subscriptions, R.StruckAll(was, c));
    }

    lemma OwnEntries(c: R.Client)
      requires Valid() && c in allSessions
      ensures R.NoneEmpty(initializing) && R.NoneEmpty(subscriptions)
      ensures forall y :: R.Has(subscriptions, y, c) ==> y in allSessions[c].subscriptions
      ensures members[c].subscriptions == allSessions[c].subscriptions
    {
      assert Linked(members, c, allSessions[c]);
      forall y | R.Has(subscriptions, y, c) ensures y in allSessions[c].subscriptions {
        assert R.Subscribed(members, c, y);
      }
    }

    method StrikeClient(c: R.Client, symbols: set<Symbol>) returns (todo: set<Symbol>)
      requires R.NoneEmpty(initializing) && R.NoneEmpty(subscriptions) && forall y :: R.Has(subscriptions, y, c) ==>
        y in symbols
      requires R.CallOf(members, c).Idle? && !members[c].died && symbols == members[c].subscriptions
      modifies this
      ensures Tables() == R.Step1(old(Tables()), R.Disconnect(c)) && allSessions == old(allSessions)
      ensures c in members && R.Leaving(members[c].call) && todo == R.LeftBehind(old(Tables()), c)
    {
      hide R.StruckAll, R.Has, R.NoneEmpty, R.LeftBehind;
      ghost var was := Tables();
      var initialized := StrikeInitializations(c);
      var subscribed := StrikeEverywhere(c, symbols);
      LeftBehindIs(was, c, initialized, subscribed);
      todo := initialized + subscribed;
      members := R.Moved(was, c, R.Rest(todo, true)).sessions;
    }

    /** The registry part of the clean-up: the client is nowhere any more, and the symbols it leaves without
        subscribers are about to be given up. Its own set stays as it is. */
    method Cleanup(c: R.Client) returns (todo: set<Symbol>)
      requires Valid() && c in allSessions && R.CallOf(members, c).Idle? && !allSessions[c].dispatch.Dead?
      modifies this
      ensures Valid() && allSessions == old(allSessions) - {c}
      ensures Tables() == R.Step1(old(Tables()), R.Disconnect(c)) && todo == R.LeftBehind(old(Tables()), c)
    {
      ghost var was := Tables();
      OwnEntries(c);
      hide G.HubOk, G.DiedOk, Linked, Apart, R.Has, R.NoneEmpty, R.Step1, R.LeftBehind;
      todo := StrikeClient(c, allSessions[c].subscriptions);
      allSessions := allSessions - {c};
      StaysValid(was, c, R.Disconnect(c));
    }

    /** The end of a client's handler. A dispatch loop that died raises again when it is awaited, and then the
        clean-up is never reached: everything stays as it is. */
    method DisconnectClient(c: R.Client) returns (todo: set<Symbol>)
      requires Valid() && c in allSessions && R.CallOf(members, c).Idle?
      modifies this
      ensures Valid() && Tables() == R.Step1(old(Tables()), R.Disconnect(c))
      ensures old(allSessions[c].dispatch.Dead?) ==> allSessions == old(allSessions) && todo == {}
      ensures !old(allSessions[c].dispatch.Dead?) ==>
        allSessions == old(allSessions) - {c} && todo == R.LeftBehind(old(Tables()), c)
    {
      ghost var was := Tables();
      if !allSessions[c].dispatch.Dead? {
        todo := Cleanup(c);
        return;
      }
      todo := {};
      assert Linked(members, c, allSessions[c]);
      members := R.Moved(was, c, R.Abandoned).sessions;
      assert Linked(members, c, allSessions[c]);
      assert Tables() == R.Step1(was, R.Disconnect(c)) by { hide G.HubOk, G.DiedOk; }
      hide G.HubOk, G.DiedOk, Linked, Apart, R.Step1;
      StaysValid(was, c, R.Disconnect(c));
    }

    lemma FetchingIsPresent(c: R.Client)
      requires Valid() && c in allSessions && allSessions[c].dispatch.Fetching?
      ensures c in members && !R.Departed(members[c].call)
    {
      assert Linked(members, c, allSessions[c]);
      hide G.HubOk, Apart;
    }

    ghost method MarkDied(c: R.Client)
      requires c in members && !R.Departed(members[c].call)
      modifies this`members
      ensures Tables() == R.Step1(old(Tables()), R.DispatchDies(c))
      ensures c in members && members[c] == old(members)[c].(died := true)
    {
      members := R.Died(Tables(), c).sessions;
    }

    /** The snapshot fetch of a gap raised: the client's dispatch loop is over. */
    method DispatchFailed(c: R.Client)
      requires Valid() && c in allSessions && allSessions[c].dispatch.Fetching?
      modifies this, allSessions[c]
      ensures Valid() && allSessions == old(allSessions) && Tables() == R.Step1(old(Tables()), R.DispatchDies(c))
      ensures allSessions[c].View() == Step1(old(allSessions[c].View()), FetchFails)
    {
      hide G.HubOk, G.DiedOk, ClientSession.View, ClientSession.Valid, Step1, R.Departed, R.Step1;
      var s := allSessions[c];
      Separate(c);
      assert s in s.Footprint();
      hide ClientSession.Footprint;
      FetchingIsPresent(c);
      hide R.CallOf;
      forall d | d in allSessions && d != c ensures s !in allSessions[d].Footprint() {
        assert Apart(s, allSessions[d]);
      }
      ghost var was := Tables();
      s.GapFetchFailed();
      MarkDied(c);
      assert Linked(members, c, s);
      hide Linked;
      forall d, f | d in allSessions && f in allSessions && d != f ensures Apart(allSessions[d], allSessions[f]) {
        assert old(Apart(allSessions[d], allSessions[f]));
      }
      hide Apart;
      StaysValid(was, c, R.DispatchDies(c));
    }

    method DropChannel(c: R.Client, y: Symbol, ghost todo: set<Symbol>, ghost leaving: bool)
      requires R.CallOf(members, c) == R.Removing(todo, leaving) && y in todo && pubsubLock.None?
      modifies this
      ensures allSessions == old(allSessions) && Tables() == R.DropStarted(old(Tables()), c, y, todo, leaving)
    {
      members := R.DropStarted(Tables(), c, y, todo, leaving).sessions;
      if y in activeChannels {
        activeChannels := activeChannels - {y};
        confirmedChannels := confirmedChannels - {y};
        if activeChannels == {} {
          channelDemand := false;
        }
        if redisPubsub.Some? {
          pubsubLock := Some(R.Of(c));
        }
      }
    }

    method DropAnswered(c: R.Client, y: Symbol, ghost todo: set<Symbol>, ghost leaving: bool, landed: bool)
      requires R.CallOf(members, c) == R.Dropping(y, todo, leaving) && redisPubsub.Some?
      modifies this
      ensures allSessions == old(allSessions) && Tables() == R.Step1(old(Tables()), R.UnsubscribeAnswered(c, landed))
      ensures KeepsItsPlace(old(members), members, c)
    {
      members := R.Step1(Tables(), R.UnsubscribeAnswered(c, landed)).sessions;
      if landed {
        redisPubsub := Some(redisPubsub.value - {y});
      }
      pubsubLock := None;
    }

    lemma PlaceKept(was: map<R.Client, R.Member>, c: R.Client)
      requires KeepsItsPlace(was, members, c) && (c in allSessions ==> Linked(was, c, allSessions[c]))
      ensures c in allSessions ==> Linked(members, c, allSessions[c])
    {
    }

    /** The start of giving one channel up, once the lock is free: this does not look at the registry again. */
    method StartRemoval(c: R.Client, y: Symbol, ghost todo: set<Symbol>, ghost leaving: bool)
      requires Valid() && R.CallOf(members, c) == R.Removing(todo, leaving) && y in todo && pubsubLock.None?
      modifies this
      ensures Valid() && allSessions == old(allSessions) && Tables() == R.Step1(old(Tables()), R.StartDrop(c, y))
    {
      hide G.HubOk, G.DiedOk, Linked, Apart, R.Step1, R.DropStarted;
      ghost var was := Tables();
      DropChannel(c, y, todo, leaving);
      DropIsAStep(was, c, y, todo, leaving);
      PlaceKept(was.sessions, c);
      StaysValid(was, c, R.StartDrop(c, y));
    }

    method RemovalAnswered(c: R.Client, y: Symbol, ghost todo: set<Symbol>, ghost leaving: bool, landed: bool)
      requires Valid() && R.CallOf(members, c) == R.Dropping(y, todo, leaving)
      modifies this
      ensures Valid() && allSessions == old(allSessions)
        && Tables() == R.Step1(old(Tables()), R.UnsubscribeAnswered(c, landed))
    {
      AskingHasConnection(c);
      hide G.HubOk, G.DiedOk, Linked, Apart, R.Step1;
      ghost var was := Tables();
      DropAnswered(c, y, todo, leaving, landed);
      PlaceKept(was.sessions, c);
      StaysValid(was, c, R.UnsubscribeAnswered(c, landed));
    }

    // ---- the fan-out loop ----

    lemma LoopStaysValid(was: R.Hub, step: R.Step)
      requires G.HubOk(was) && Tables() == R.Step1(was, step) && G.Mover(step) == None && members == was.sessions
      ensures G.HubOk(Tables())
    {
      G.StepKeeps(was, step);
    }

    method DemandArrived()
      requires Valid() && fanout.Waiting? && channelDemand
      modifies this
      ensures Valid() && allSessions == old(allSessions) && Tables() == R.Step1(old(Tables()), R.DemandSeen)
    {
      ghost var was := Tables();
      hide G.HubOk, G.DiedOk, Linked, Apart;
      fanout := R.Starting;
      LoopStaysValid(was, R.DemandSeen);
    }

    /** A fresh connection; if channels are desired, all of them are asked for under the lock. */
    method OpenConnection()
      requires Valid() && fanout.Starting? && pubsubLock.None?
      modifies this
      ensures Valid() && allSessions == old(allSessions) && Tables() == R.Step1(old(Tables()), R.OpenConnection)
    {
      ghost var was := Tables();
      hide G.HubOk, G.DiedOk, Linked, Apart;
      redisPubsub := Some({});
      confirmedChannels := {};
      if activeChannels == {} {
        fanout := R.Listening;
      } else {
        fanout, pubsubLock := R.Connecting, Some(R.Fanout);
      }
      LoopStaysValid(was, R.OpenConnection);
    }

    method ConnectAnswered(ok: bool, some: set<Symbol>)
      requires Valid() && fanout.Connecting?
      modifies this
      ensures Valid() && allSessions == old(allSessions)
        && Tables() == R.Step1(old(Tables()), R.ConnectAnswered(ok, some))
    {
      ghost var was := Tables();
      hide G.HubOk, G.DiedOk, Linked, Apart;
      if ok {
        redisPubsub := Some(activeChannels);
        confirmedChannels := confirmedChannels + activeChannels;
        fanout := R.Listening;
      } else {
        redisPubsub := Some(some * activeChannels);
        fanout := R.Failing;
      }
      pubsubLock := None;
      LoopStaysValid(was, R.ConnectAnswered(ok, some));
    }

    /** Listening ended, with an error or without; the server may have dropped any of the channels. */
    method ListenEnded(left: set<Symbol>)
      requires Valid() && fanout.Listening?
      modifies this
      ensures Valid() && allSessions == old(allSessions) && Tables() == R.Step1(old(Tables()), R.ListenEnds(left))
    {
      ghost var was := Tables();
      hide G.HubOk, G.DiedOk, Linked, Apart;
      if redisPubsub.Some? {
        redisPubsub := Some(left * redisPubsub.value);
      }
      fanout := R.Failing;
      LoopStaysValid(was, R.ListenEnds(left));
    }

    method CloseConnection()
      requires Valid() && fanout.Failing? && pubsubLock.None?
      modifies this
      ensures Valid() && allSessions == old(allSessions) && Tables() == R.Step1(old(Tables()), R.Close)
    {
      ghost var was := Tables();
      hide G.HubOk, G.DiedOk, Linked, Apart;
      redisPubsub := None;
      confirmedChannels := {};
      fanout := R.Waiting;
      LoopStaysValid(was, R.Close);
    }

    // ---- connecting, and the beginning of a subscribe ----

    lemma ConnectAdds(h: R.Hub, c: R.Client)
      requires c !in h.sessions
      ensures var g := R.Step1(h, R.Connect(c));
        g == h.(sessions := g.sessions) && g.sessions == h.sessions[c := R.Member({}, R.Idle, None, false)]
    {
    }

    method ConnectClient(c: R.Client, policy: Policy, mode: Mode)
      requires Valid() && c !in members
      modifies this
      ensures Valid() && c in allSessions && fresh(allSessions[c])
        && allSessions == old(allSessions)[c := allSessions[c]]
      ensures Tables() == R.Step1(old(Tables()), R.Connect(c)) && allSessions[c].View() == Connected(mode, policy)
    {
      ghost var was := Tables();
      hide G.HubOk, G.DiedOk, ClientSession.Valid, ClientSession.View;
      var s := new ClientSession(policy, mode);
      assert this !in s.Footprint();
      forall d | d in allSessions ensures Apart(s, allSessions[d]) && Apart(allSessions[d], s) {
      }
      allSessions := allSessions[c := s];
      ConnectAdds(was, c);
      members := R.Step1(was, R.Connect(c)).sessions;
      assert Linked(members, c, s);
      hide Apart, Linked, R.Step1;
      StaysValid(was, c, R.Connect(c));
    }

    method SubscribeRequested(c: R.Client, y: Symbol)
      requires Valid() && R.CallOf(members, c).Idle?
      modifies this
      ensures Valid() && allSessions == old(allSessions) && Tables() == R.Step1(old(Tables()), R.BeginSubscribe(c, y))
    {
      ghost var was := Tables();
      hide G.HubOk, G.DiedOk;
      members := R.Step1(was, R.BeginSubscribe(c, y)).sessions;
      StaysValid(was, c, R.BeginSubscribe(c, y));
    }

    /** A subscribe message up to its first suspension: with the lock free, the first try is part of it. */
    method SubscribeReceived(c: R.Client, y: Symbol, filter: Option<Filter>)
      requires Valid() && c in allSessions && R.CallOf(members, c).Idle?
      modifies this, allSessions[c]
      ensures Valid() && allSessions == old(allSessions)
      ensures Tables() == R.Step1(R.Step1(old(Tables()), R.BeginSubscribe(c, y)), R.Try(c))
      ensures allSessions[c].View() ==
              if old(pubsubLock).None? && y in old(confirmedChannels) then
                Step1(old(allSessions[c].View()), Join(y, filter))
              else old(allSessions[c].View())
    {
      hide G.HubOk, G.DiedOk, ClientSession.View, ClientSession.Valid, Linked, Apart, Step1;
      Separate(c);
      assert allSessions[c] in allSessions[c].Footprint();
      SubscribeRequested(c, y);
      assert allSessions[c].View() == old(allSessions[c].View());
      if pubsubLock.None? {
        TrySubscribe(c, y, filter, 0);
      }
    }
  }
}
