/** What the gateway's tables keep over every lock-respecting interleaving, and what only serialised calls
    keep. */
module RegistryGuarantees {
  import opened Events
  import opened Registries

  // ---- the invariants ----

  predicate Connected(loop: Loop) {
    loop.Connecting? || loop.Listening? || loop.Failing?
  }

  /** Confirmed channels are desired, and really subscribed on the current connection unless that is about to
      be closed; without a connection none is confirmed; the fan-out loop's wake-up flag is set exactly when
      something is desired. */
  predicate ChannelsOk(active: set<Symbol>, confirmed: set<Symbol>, demand: bool, pubsub: Option<set<Symbol>>,
                       loop: Loop)
  {
    && confirmed <= active
    && (pubsub.Some? <==> Connected(loop))
    && (pubsub.None? ==> confirmed == {})
    && (pubsub.Some? && !loop.Failing? ==> confirmed <= pubsub.value)
    && (demand <==> active != {})
  }

  /** The lock is held by exactly the task that awaits Redis. */
  ghost predicate LockOk(h: Hub) {
    && (forall c {:trigger CallOf(h.sessions, c)} ::
          h.lock == Some(Of(c)) <==> CallOf(h.sessions, c).Asking? || CallOf(h.sessions, c).Dropping?)
    && (forall c {:trigger CallOf(h.sessions, c)} :: CallOf(h.sessions, c).Asking? ==>
         CallOf(h.sessions, c).symbol in h.active)
    && (forall c {:trigger CallOf(h.sessions, c)} :: CallOf(h.sessions, c).Dropping? ==>
         CallOf(h.sessions, c).symbol !in h.active)
    && (h.lock == Some(Fanout) <==> h.loop.Connecting?) && (h.loop.Connecting? ==> h.confirmed == {})
    && (h.lock.Some? ==> h.pubsub.Some?)
  }

  /** A session is in the registry under exactly the symbols of its own set, and no entry is empty. */
  ghost predicate RegistryOk(subscriptions: Registry, initializing: Registry, sessions: map<Client, Member>) {
    && NoneEmpty(subscriptions) && NoneEmpty(initializing)
    && (forall y, c {:trigger Has(subscriptions, y, c)} {:trigger Subscribed(sessions, c, y)} ::
          Has(subscriptions, y, c) <==> Subscribed(sessions, c, y))
    && (forall y, c {:trigger Has(initializing, y, c)} ::
          Has(initializing, y, c) <==> CallOf(sessions, c) == Fetching(y))
  }

  ghost predicate HubOk(h: Hub) {
    && ChannelsOk(h.active, h.confirmed, h.demand, h.pubsub, h.loop) && LockOk(h)
    && RegistryOk(h.subscriptions, h.initializing, h.sessions)
  }

  ghost predicate Reachable(h: Hub) {
    exists steps :: h == Run(steps)
  }

  // ---- every step keeps them ----

  predicate OfSubscribe(step: Step) {
    step.Connect? || step.BeginSubscribe? || step.Try? || step.SubscribeAnswered? || step.GiveUp? || step.SnapshotFails?
      || step.Activate? ||
    step.DispatchDies?
  }

  predicate OfLoop(step: Step) {
    step.DemandSeen? || step.OpenConnection? || step.ConnectAnswered? || step.ListenEnds? || step.Close?
  }

  lemma SubscribeKeepsChannels(h: Hub, step: Step)
    requires HubOk(h) && OfSubscribe(step)
    ensures var g := Step1(h, step); ChannelsOk(g.active, g.confirmed, g.demand, g.pubsub, g.loop)
  {
    hide RegistryOk, Moved, Registered, Settled, With, Died;
  }

  lemma LoopKeepsChannels(h: Hub, step: Step)
    requires HubOk(h) && OfLoop(step)
    ensures var g := Step1(h, step); ChannelsOk(g.active, g.confirmed, g.demand, g.pubsub, g.loop)
  {
    hide RegistryOk;
  }

  lemma RemoveKeepsChannels(h: Hub, step: Step)
    requires HubOk(h) && !OfSubscribe(step) && !OfLoop(step)
    ensures var g := Step1(h, step); ChannelsOk(g.active, g.confirmed, g.demand, g.pubsub, g.loop)
  {
    hide RegistryOk, Struck, StruckAll, Moved, With, InUse;
  }

  predicate OfChannel(step: Step) {
    step.Try? || step.SubscribeAnswered?
  }

  lemma TryKeepsLock(h: Hub, c: Client, y: Symbol, tries: nat)
    requires LockOk(h) && h.lock.None? && CallOf(h.sessions, c) == Ensuring(y, tries)
    ensures LockOk(Tried(h, c, y, tries))
  {
    hide Entered;
    var g := Tried(h, c, y, tries);
    assert forall d {:trigger CallOf(g.sessions, d)} :: d != c ==> CallOf(g.sessions, d) == CallOf(h.sessions, d);
    hide With;
  }

  lemma AnswerKeepsLock(h: Hub, c: Client, y: Symbol, tries: nat, ok: bool, landed: bool)
    requires LockOk(h) && h.pubsub.Some? && CallOf(h.sessions, c) == Asking(y, tries)
    ensures LockOk(SubscribeReturned(h, c, y, tries, ok, landed))
  {
    hide Entered;
    var g := SubscribeReturned(h, c, y, tries, ok, landed);
    assert forall d {:trigger CallOf(g.sessions, d)} :: d != c ==> CallOf(g.sessions, d) == CallOf(h.sessions, d);
    hide With;
  }

  lemma ChannelKeepsLock(h: Hub, step: Step)
    requires HubOk(h) && OfChannel(step)
    ensures LockOk(Step1(h, step))
  {
    var c, call := step.client, CallOf(h.sessions, step.client);
    hide RegistryOk, ChannelsOk, LockOk, Tried, SubscribeReturned;
    match step
    case Try(_) => if call.Ensuring? && h.lock.None? { TryKeepsLock(h, c, call.symbol, call.tries); }
    case SubscribeAnswered(_, ok, landed) =>
      if call.Asking? && h.pubsub.Some? { AnswerKeepsLock(h, c, call.symbol, call.tries, ok, landed); }
  }

  lemma SubscribeKeepsLock(h: Hub, step: Step)
    requires HubOk(h) && OfSubscribe(step)
    ensures LockOk(Step1(h, step))
  {
    hide RegistryOk, ChannelsOk, Entered, Struck, InUse, Tried, SubscribeReturned;
    if OfChannel(step) {
      ChannelKeepsLock(h, step);
    } else if step.Connect? && step.client !in h.sessions {
      assert CallOf(h.sessions, step.client).Gone?;
    }
  }

  predicate OfDrop(step: Step) {
    step.StartDrop? || step.UnsubscribeAnswered?
  }

  lemma StartKeepsLock(h: Hub, c: Client, y: Symbol, todo: set<Symbol>, leaving: bool)
    requires LockOk(h) && h.lock.None? && CallOf(h.sessions, c) == Removing(todo, leaving)
    ensures LockOk(DropStarted(h, c, y, todo, leaving))
  {
    var g := DropStarted(h, c, y, todo, leaving);
    assert forall d {:trigger CallOf(g.sessions, d)} :: d != c ==> CallOf(g.sessions, d) == CallOf(h.sessions, d);
    hide With;
  }

  lemma ReturnKeepsLock(h: Hub, c: Client, y: Symbol, todo: set<Symbol>, leaving: bool, landed: bool)
    requires LockOk(h) && h.pubsub.Some? && CallOf(h.sessions, c) == Dropping(y, todo, leaving)
    ensures LockOk(DropReturned(h, c, y, todo, leaving, landed))
  {
    var g := DropReturned(h, c, y, todo, leaving, landed);
    assert forall d {:trigger CallOf(g.sessions, d)} :: d != c ==> CallOf(g.sessions, d) == CallOf(h.sessions, d);
    hide With;
  }

  lemma DropKeepsLock(h: Hub, step: Step)
    requires HubOk(h) && OfDrop(step)
    ensures LockOk(Step1(h, step))
  {
    var c, call := step.client, CallOf(h.sessions, step.client);
    hide RegistryOk, ChannelsOk, LockOk, DropStarted, DropReturned;
    match step
    case StartDrop(_, y) => if call.Removing? && h.lock.None? { StartKeepsLock(h, c, y, call.todo, call.leaving); }
    case UnsubscribeAnswered(_, landed) =>
      if call.Dropping? && h.pubsub.Some? { ReturnKeepsLock(h, c, call.symbol, call.todo, call.leaving, landed); }
  }

  lemma RemoveKeepsLock(h: Hub, step: Step)
    requires HubOk(h) && !OfSubscribe(step) && !OfLoop(step)
    ensures LockOk(Step1(h, step))
  {
    var c, t := step.client, Step1(h, step);
    if OfDrop(step) {
      DropKeepsLock(h, step);
    } else if CallOf(h.sessions, c).Idle? {
      assert h.lock != Some(Of(c)) by { hide RegistryOk, ChannelsOk; }
      hide RegistryOk, ChannelsOk, LockOk, Struck, StruckAll, InUse, LeftBehind, DropStarted, DropReturned, Has;
      match step
      case BeginUnsubscribe(_, y) => UnsubscribeKeepsLock(h, c, y);
      case Disconnect(_) => DisconnectKeepsLock(h, c);
    }
  }

  lemma UnsubscribeKeepsLock(h: Hub, c: Client, y: Symbol)
    requires LockOk(h) && c in h.sessions && h.lock != Some(Of(c))
    ensures LockOk(Unsubscribed(h, c, y))
  {
    hide Struck, Has, With;
  }

  lemma DisconnectKeepsLock(h: Hub, c: Client)
    requires LockOk(h) && c in h.sessions && h.lock != Some(Of(c))
    ensures LockOk(Disconnected(h, c))
  {
    hide StruckAll, Has, With, LeftBehind;
  }

  lemma LoopKeepsLock(h: Hub, step: Step)
    requires HubOk(h) && OfLoop(step)
    ensures LockOk(Step1(h, step))
  {
    hide RegistryOk;
  }

  lemma MoveKeepsRegistry(h: Hub, c: Client, call: Call)
    requires RegistryOk(h.subscriptions, h.initializing, h.sessions) && c in h.sessions
    requires !CallOf(h.sessions, c).Fetching? && !call.Fetching? && Leaving(call) == Leaving(CallOf(h.sessions, c))
    ensures RegistryOk(h.subscriptions, h.initializing, Moved(h, c, call).sessions)
  {
    hide Has, NoneEmpty;
  }

  lemma DeathKeepsRegistry(h: Hub, c: Client)
    requires RegistryOk(h.subscriptions, h.initializing, h.sessions) && c in h.sessions
    ensures RegistryOk(h.subscriptions, h.initializing, Died(h, c).sessions)
  {
    hide Has, NoneEmpty;
  }

  lemma RegisterKeepsRegistry(h: Hub, c: Client, y: Symbol)
    requires RegistryOk(h.subscriptions, h.initializing, h.sessions) && c in h.sessions
    requires !CallOf(h.sessions, c).Fetching? && !Leaving(CallOf(h.sessions, c))
    ensures var g := Registered(h, c, y); RegistryOk(g.subscriptions, g.initializing, g.sessions)
  {
    hide Has, NoneEmpty, Entered;
  }

  /** However a subscribe call ends, its initialisation entry is gone. */
  lemma SettleKeepsRegistry(h: Hub, c: Client, y: Symbol, result: bool)
    requires RegistryOk(h.subscriptions, h.initializing, h.sessions) && c in h.sessions
    requires CallOf(h.sessions, c).Ensuring? || CallOf(h.sessions, c) == Fetching(y)
    ensures var g := Settled(h, c, y, result); RegistryOk(g.subscriptions, g.initializing, g.sessions)
  {
    hide Has, NoneEmpty, Struck, InUse;
  }

  lemma ActivateKeepsRegistry(h: Hub, c: Client, y: Symbol)
    requires RegistryOk(h.subscriptions, h.initializing, h.sessions) && CallOf(h.sessions, c) == Fetching(y)
    ensures var g := Activated(h, c, y); RegistryOk(g.subscriptions, g.initializing, g.sessions)
  {
    var g := h.(subscriptions := Entered(h.subscriptions, y, c),
                sessions := With(h.sessions, c, h.sessions[c].(subscriptions := h.sessions[c].subscriptions + {y})));
    hide Has, NoneEmpty, Entered, Settled;
    SettleKeepsRegistry(g, c, y, true);
  }

  lemma ConnectKeepsRegistry(h: Hub, c: Client)
    requires RegistryOk(h.subscriptions, h.initializing, h.sessions) && c !in h.sessions
    ensures RegistryOk(h.subscriptions, h.initializing, With(h.sessions, c, Member({}, Idle, None, false)))
  {
    hide Has, NoneEmpty;
    assert CallOf(h.sessions, c) == Gone;
    forall y ensures !Subscribed(h.sessions, c, y) {
    }
  }

  lemma SubscribeKeepsRegistry(h: Hub, step: Step)
    requires RegistryOk(h.subscriptions, h.initializing, h.sessions) && OfSubscribe(step)
    ensures var g := Step1(h, step); RegistryOk(g.subscriptions, g.initializing, g.sessions)
  {
    hide RegistryOk, Registered, Settled, Activated, Moved, With, Died;
    var c, call := step.client, CallOf(h.sessions, step.client);
    match step
    case Connect(_) => if c !in h.sessions { ConnectKeepsRegistry(h, c); }
    case BeginSubscribe(_, y) => if call.Idle? { MoveKeepsRegistry(h, c, Ensuring(y, 0)); }
    case Try(_) =>
      if call.Ensuring? {
        var g := h.(active := h.active + {call.symbol}, demand := true);
        RegisterKeepsRegistry(g, c, call.symbol);
        MoveKeepsRegistry(g, c, Ensuring(call.symbol, call.tries + 1));
        MoveKeepsRegistry(g.(lock := Some(Of(c))), c, Asking(call.symbol, call.tries));
      }
    case SubscribeAnswered(_, ok, landed) =>
      if call.Asking? && h.pubsub.Some? {
        var g := h.(lock := None, pubsub := if ok || landed then Some(h.pubsub.value + {call.symbol}) else h.pubsub);
        RegisterKeepsRegistry(g.(confirmed := h.confirmed + {call.symbol}), c, call.symbol);
        MoveKeepsRegistry(g, c, Ensuring(call.symbol, call.tries + 1));
      }
    case DispatchDies(_) => if !Departed(call) { DeathKeepsRegistry(h, c); }
    case GiveUp(_) => if call.Ensuring? { SettleKeepsRegistry(h, c, call.symbol, false); }
    case SnapshotFails(_) => if call.Fetching? { SettleKeepsRegistry(h, c, call.symbol, false); }
    case Activate(_) => if call.Fetching? { ActivateKeepsRegistry(h, c, call.symbol); }
  }

  lemma DropKeepsRegistry(h: Hub, c: Client, y: Symbol, todo: set<Symbol>, leaving: bool)
    requires RegistryOk(h.subscriptions, h.initializing, h.sessions) && CallOf(h.sessions, c) == Removing(todo, leaving)
    ensures var g := DropStarted(h, c, y, todo, leaving); RegistryOk(g.subscriptions, g.initializing, g.sessions)
  {
    var g := DropStarted(h, c, y, todo, leaving);
    hide RegistryOk;
    MoveKeepsRegistry(h, c, CallOf(g.sessions, c));
    assert g.sessions == Moved(h, c, CallOf(g.sessions, c)).sessions;
    hide DropStarted, Moved;
  }

  lemma RemoveKeepsRegistry(h: Hub, step: Step)
    requires RegistryOk(h.subscriptions, h.initializing, h.sessions) && !OfSubscribe(step) && !OfLoop(step)
    ensures var g := Step1(h, step); RegistryOk(g.subscriptions, g.initializing, g.sessions)
  {
    hide Has, Struck, StruckAll, NoneEmpty, InUse, DropStarted;
    if step.StartDrop? && CallOf(h.sessions, step.client).Removing? {
      var call := CallOf(h.sessions, step.client);
      DropKeepsRegistry(h, step.client, step.symbol, call.todo, call.leaving);
    }
  }

  lemma StepKeeps(h: Hub, step: Step)
    requires HubOk(h)
    ensures HubOk(Step1(h, step))
  {
    if OfSubscribe(step) {
      SubscribeKeepsChannels(h, step);
      SubscribeKeepsLock(h, step);
      SubscribeKeepsRegistry(h, step);
    } else if OfLoop(step) {
      LoopKeepsChannels(h, step);
      LoopKeepsLock(h, step);
    } else {
      RemoveKeepsChannels(h, step);
      RemoveKeepsLock(h, step);
      RemoveKeepsRegistry(h, step);
    }
    hide RegistryOk, LockOk, ChannelsOk, Moved, DropStarted, Settled, Activated, CleanedUp, Unsubscribed, Tried,
      SubscribeReturned, DropReturned, With;
  }

  lemma {:induction false} RunKeeps(steps: seq<Step>)
    ensures HubOk(Run(steps))
  {
    if steps != [] {
      RunKeeps(steps[..|steps| - 1]);
      StepKeeps(Run(steps[..|steps| - 1]), steps[|steps| - 1]);
      hide HubOk, Step1;
    }
  }

  lemma ReachableOk(h: Hub)
    requires Reachable(h)
    ensures HubOk(h)
  {
    hide HubOk;
    var steps :| h == Run(steps);
    RunKeeps(steps);
  }

  // ---- over every interleaving ----

  /** Failed subscribes, lost connections, reconnects and concurrent calls included. */
  lemma ChannelState(h: Hub)
    requires Reachable(h)
    ensures h.confirmed <= h.active
    ensures h.pubsub.Some? <==> h.loop.Connecting? || h.loop.Listening? || h.loop.Failing?
    ensures h.pubsub.None? ==> h.confirmed == {}
    ensures h.loop.Listening? ==> forall y | y in h.confirmed :: Heard(h, y)
    ensures h.demand <==> h.active != {}
  {
    ReachableOk(h);
  }

  /** What counts as confirmed is really subscribed. */
  predicate Truthful(h: Hub) {
    h.pubsub.Some? ==> h.confirmed <= h.pubsub.value
  }

  /** Channels stay confirmed that are not subscribed any more exactly after listening ended with some of them
      lost. */
  lemma TruthfulBreaksExactly(h: Hub, step: Step)
    requires Reachable(h) && Truthful(h)
    ensures Truthful(Step1(h, step)) <==> !(step.ListenEnds? && h.loop.Listening? && !(h.confirmed <= step.left))
  {
    ReachableOk(h);
    if OfLoop(step) {
      hide RegistryOk;
    } else {
      CallsKeepTruth(h, step);
      hide Step1, HubOk;
    }
  }

  lemma CallsKeepTruth(h: Hub, step: Step)
    requires HubOk(h) && Truthful(h) && !OfLoop(step)
    ensures Truthful(Step1(h, step))
  {
    hide RegistryOk, Settled, Registered, Moved, Has, Entered, Struck, StruckAll, With, InUse, LeftBehind, Died;
  }

  /** A completed reconnect confirms exactly the desired channels. */
  lemma ReconnectConfirmsDesired(h: Hub, some: set<Symbol>)
    requires Reachable(h) && h.loop.Connecting?
    ensures var g := Step1(h, ConnectAnswered(true, some));
      g.confirmed == g.active == h.active
      && g.pubsub == Some(g.active)
      && forall y | y in h.active :: Heard(g, y)
  {
    ReachableOk(h);
  }

  /** Whoever holds the lock awaits an answer of Redis that can arrive: the lock is never stuck. */
  lemma LockIsNeverStuck(h: Hub)
    requires Reachable(h) && h.lock.Some?
    ensures match h.lock.value
      case Fanout => Step1(h, ConnectAnswered(false, {})).lock == None
      case Of(c) =>
        Step1(h, SubscribeAnswered(c, false, false)).lock == None
          || Step1(h, UnsubscribeAnswered(c, false)).lock == None
  {
    ReachableOk(h);
    hide RegistryOk;
    match h.lock.value
    case Fanout =>
    case Of(c) => assert CallOf(h.sessions, c).Asking? || CallOf(h.sessions, c).Dropping?;
  }

  /** A live session is registered under exactly its own set, a leaving one nowhere; an initialisation
      entry exists exactly while that session's snapshot is outstanding; no entry is empty. */
  lemma RegistryAgrees(h: Hub, c: Client, y: Symbol)
    requires Reachable(h)
    ensures Has(h.subscriptions, y, c) <==>
      c in h.sessions && !Leaving(h.sessions[c].call) && y in h.sessions[c].subscriptions
    ensures Has(h.initializing, y, c) <==> CallOf(h.sessions, c) == Fetching(y)
    ensures y in h.subscriptions ==> h.subscriptions[y] != {}
    ensures y in h.initializing ==> h.initializing[y] != {}
  {
    ReachableOk(h);
    assert Has(h.subscriptions, y, c) <==> Subscribed(h.sessions, c, y);
    hide LockOk;
  }

  // ---- what a disconnect leaves behind ----

  /** Only a client whose dispatch loop lived leaves in an orderly way. */
  ghost predicate DiedOk(sessions: map<Client, Member>) {
    forall c {:trigger c in sessions} | c in sessions :: OrderlyOk(sessions[c])
  }

  /** The client whose own task or dispatch loop takes the step. */
  function Mover(step: Step): Option<Client> {
    match step
    case DemandSeen => None
    case OpenConnection => None
    case ConnectAnswered(_, _) => None
    case ListenEnds(_) => None
    case Close => None
    case _ => Some(step.client)
  }

  lemma OthersStayDuringTry(h: Hub, step: Step, d: Client)
    requires OfChannel(step) && step.client != d
    ensures d in Step1(h, step).sessions <==> d in h.sessions
    ensures d in h.sessions ==> Step1(h, step).sessions[d] == h.sessions[d]
  {
    hide Has, Entered;
  }

  lemma OthersStayDuringSubscribe(h: Hub, step: Step, d: Client)
    requires OfSubscribe(step) && !OfChannel(step) && step.client != d
    ensures d in Step1(h, step).sessions <==> d in h.sessions
    ensures d in h.sessions ==> Step1(h, step).sessions[d] == h.sessions[d]
  {
    hide Has, Entered, Struck, InUse, Tried, SubscribeReturned;
  }

  /** A client moves only by its own steps. */
  lemma OthersStay(h: Hub, step: Step, d: Client)
    requires Mover(step) != Some(d)
    ensures d in Step1(h, step).sessions <==> d in h.sessions
    ensures d in h.sessions ==> Step1(h, step).sessions[d] == h.sessions[d]
  {
    hide Struck, StruckAll, LeftBehind, Tried, SubscribeReturned, Settled, Activated, Died;
    if OfChannel(step) {
      OthersStayDuringTry(h, step, d);
    } else if OfSubscribe(step) {
      OthersStayDuringSubscribe(h, step, d);
    }
  }

  predicate OrderlyOk(m: Member) {
    (Leaving(m.call) ==> !m.died) && (m.call.Abandoned? ==> m.died)
  }

  lemma SubscribeKeepsDied(h: Hub, step: Step)
    requires OfSubscribe(step) && (step.client in h.sessions ==> OrderlyOk(h.sessions[step.client]))
    ensures var c, t := step.client, Step1(h, step).sessions; c in t ==> OrderlyOk(t[c])
  {
    hide Has, Entered, Struck, InUse;
  }

  lemma RemoveKeepsDied(h: Hub, step: Step)
    requires !OfSubscribe(step) && !OfLoop(step) && (step.client in h.sessions ==> OrderlyOk(h.sessions[step.client]))
    ensures var c, t := step.client, Step1(h, step).sessions; c in t ==> OrderlyOk(t[c])
  {
    hide Has, Struck, StruckAll, LeftBehind;
  }

  lemma StepKeepsDied(h: Hub, step: Step)
    requires DiedOk(h.sessions)
    ensures DiedOk(Step1(h, step).sessions)
  {
    var t := Step1(h, step).sessions;
    if OfSubscribe(step) {
      SubscribeKeepsDied(h, step);
    } else if !OfLoop(step) {
      RemoveKeepsDied(h, step);
    }
    hide Step1, OrderlyOk;
    forall c | c in t ensures OrderlyOk(t[c]) {
      if Mover(step) != Some(c) {
        OthersStay(h, step, c);
      }
    }
  }

  lemma {:induction false} RunKeepsDied(steps: seq<Step>)
    ensures DiedOk(Run(steps).sessions)
  {
    if steps != [] {
      hide DiedOk, Step1;
      RunKeepsDied(steps[..|steps| - 1]);
      StepKeepsDied(Run(steps[..|steps| - 1]), steps[|steps| - 1]);
    }
  }

  /** A client that has departed is registered nowhere exactly if its dispatch loop had not died, or it was
      subscribed to nothing. */
  lemma DepartedIsGoneUnlessDead(h: Hub, c: Client)
    requires Reachable(h) && c in h.sessions && Departed(h.sessions[c].call)
    ensures (forall y :: !Has(h.subscriptions, y, c)) <==> (!h.sessions[c].died || h.sessions[c].subscriptions == {})
  {
    var steps :| h == Run(steps);
    RunKeepsDied(steps);
    ReachableOk(h);
    hide LockOk, Run;
    assert CallOf(h.sessions, c) == h.sessions[c].call;
    forall y ensures Has(h.subscriptions, y, c) <==> Subscribed(h.sessions, c, y) {
    }
    if h.sessions[c].died && h.sessions[c].subscriptions != {} {
      var y :| y in h.sessions[c].subscriptions;
      assert Has(h.subscriptions, y, c);
    }
  }

  /** And an abandoned one stays registered for good. */
  lemma AbandonedStays(h: Hub, step: Step, c: Client, y: Symbol)
    requires Reachable(h) && CallOf(h.sessions, c).Abandoned?
    ensures CallOf(Step1(h, step).sessions, c).Abandoned?
    ensures Has(Step1(h, step).subscriptions, y, c) == Has(h.subscriptions, y, c)
  {
    ReachableOk(h);
    StepKeeps(h, step);
    var t := Step1(h, step);
    assert c in t.sessions && t.sessions[c] == h.sessions[c] by {
      hide HubOk;
      if Mover(step) != Some(c) {
        OthersStay(h, step, c);
      }
    }
    hide LockOk, Step1, Reachable;
    assert Has(h.subscriptions, y, c) <==> Subscribed(h.sessions, c, y);
    assert Has(t.subscriptions, y, c) <==> Subscribed(t.sessions, c, y);
  }

  predicate Wanted(h: Hub, y: Symbol) {
    InUse(h, y) ==> y in h.active
  }

  ghost predicate AllWanted(h: Hub) {
    forall y {:trigger Wanted(h, y)} :: Wanted(h, y)
  }

  /** The check that `_unsubscribe_pubsub_symbol` does not make once it has the lock. */
  predicate RemovesInUse(h: Hub, step: Step) {
    && step.StartDrop? && CallOf(h.sessions, step.client).Removing?
    && step.symbol in CallOf(h.sessions, step.client).todo
    && h.lock.None? && step.symbol in h.active && InUse(h, step.symbol)
  }

  lemma InUseHas(h: Hub, y: Symbol)
    requires HubOk(h)
    ensures InUse(h, y) <==> exists c :: Has(h.subscriptions, y, c) || Has(h.initializing, y, c)
  {
    if y in h.subscriptions {
      var c :| c in h.subscriptions[y];
      assert Has(h.subscriptions, y, c);
    }
    if y in h.initializing {
      var c :| c in h.initializing[y];
      assert Has(h.initializing, y, c);
    }
  }

  lemma OnlyChannelsInitialise(h: Hub, step: Step, c: Client, y: Symbol)
    requires CallOf(h.sessions, c) != Fetching(y) && CallOf(Step1(h, step).sessions, c) == Fetching(y)
    ensures OfChannel(step) && step.client == c
  {
    hide Has, Entered, Struck, StruckAll, InUse, LeftBehind, Tried, SubscribeReturned;
    if Mover(step) != Some(c) {
      OthersStay(h, step, c);
    }
  }

  lemma ChannelStepsKeepTheLoop(h: Hub, step: Step)
    requires OfChannel(step)
    ensures Step1(h, step).loop == h.loop
  {
    hide Has, Entered;
  }

  lemma NobodyCallsWhileConnecting(h: Hub, step: Step)
    requires LockOk(h) && OfChannel(step) && h.loop.Connecting?
    ensures Step1(h, step) == h
  {
    hide Has, Entered;
    assert h.lock == Some(Fanout);
    assert !CallOf(h.sessions, step.client).Asking?;
  }

  /** A subscribe goes on to its snapshot only when its channel is desired and confirmed. It is heard from then
      on exactly unless the fan-out loop had already stopped reading the connection: nothing looks at that. */
  lemma InitialisesHeardExactly(h: Hub, step: Step, c: Client, y: Symbol)
    requires Reachable(h)
    requires CallOf(h.sessions, c) != Fetching(y) && CallOf(Step1(h, step).sessions, c) == Fetching(y)
    ensures y in Step1(h, step).active && y in Step1(h, step).confirmed
    ensures Heard(Step1(h, step), y) <==> !h.loop.Failing?
  {
    ReachableOk(h);
    StepKeeps(h, step);
    InitialisesActive(h, step, c, y);
    OnlyChannelsInitialise(h, step, c, y);
    ChannelStepsKeepTheLoop(h, step);
    if h.loop.Connecting? {
      NobodyCallsWhileConnecting(h, step);
    }
    hide RegistryOk, LockOk, Step1;
  }

  lemma InitialisesActive(h: Hub, step: Step, c: Client, y: Symbol)
    requires HubOk(h)
    requires CallOf(h.sessions, c) != Fetching(y) && CallOf(Step1(h, step).sessions, c) == Fetching(y)
    ensures y in Step1(h, step).active && y in Step1(h, step).confirmed
  {
    OnlyChannelsInitialise(h, step, c, y);
    hide Has, Entered, RegistryOk;
  }

  lemma LeavingStays(h: Hub, step: Step, c: Client)
    requires c in h.sessions && Leaving(CallOf(h.sessions, c))
    ensures Leaving(CallOf(Step1(h, step).sessions, c))
  {
    hide Has, Entered, Struck, StruckAll, InUse, LeftBehind, Tried, SubscribeReturned, Settled, Activated, Unsubscribed;
    if Mover(step) != Some(c) {
      OthersStay(h, step, c);
    }
  }

  lemma OwnSetGrows(h: Hub, step: Step, c: Client, y: Symbol)
    requires c in Step1(h, step).sessions && y in Step1(h, step).sessions[c].subscriptions
    requires !(c in h.sessions && y in h.sessions[c].subscriptions)
    ensures CallOf(h.sessions, c) == Fetching(y)
  {
    hide Has, Entered, Struck, StruckAll, InUse, LeftBehind, Tried, SubscribeReturned;
    if Mover(step) != Some(c) {
      OthersStay(h, step, c);
    }
  }

  lemma OnlyActivationSubscribes(h: Hub, step: Step, c: Client, y: Symbol)
    requires Subscribed(Step1(h, step).sessions, c, y) && !Subscribed(h.sessions, c, y)
    ensures CallOf(h.sessions, c) == Fetching(y)
  {
    hide Step1;
    if c in h.sessions && Leaving(CallOf(h.sessions, c)) {
      LeavingStays(h, step, c);
    } else {
      OwnSetGrows(h, step, c, y);
    }
  }

  /** A new use of a symbol begins with its channel confirmed and desired. */
  lemma NewUse(h: Hub, step: Step, y: Symbol)
    requires HubOk(h) && InUse(Step1(h, step), y) && !InUse(h, y)
    ensures y in Step1(h, step).confirmed && y in Step1(h, step).active
  {
    var g := Step1(h, step);
    StepKeeps(h, step);
    InUseHas(h, y);
    InUseHas(g, y);
    hide InUse, Step1, LockOk, ChannelsOk;
    var c :| Has(g.subscriptions, y, c) || Has(g.initializing, y, c);
    assert !Has(h.subscriptions, y, c) && !Has(h.initializing, y, c);
    hide Has, NoneEmpty;
    if Has(g.subscriptions, y, c) {
      assert Subscribed(g.sessions, c, y) && !Subscribed(h.sessions, c, y);
      OnlyActivationSubscribes(h, step, c, y);
    } else {
      InitialisesActive(h, step, c, y);
    }
  }

  lemma OnlyDropsRemove(h: Hub, step: Step, y: Symbol)
    requires y in h.active && y !in Step1(h, step).active
    ensures step.StartDrop? && step.symbol == y && CallOf(h.sessions, step.client).Removing?
      && y in CallOf(h.sessions, step.client).todo && h.lock.None?
  {
    hide Settled, Registered, Moved, Has, Entered, Struck, StruckAll, With, InUse;
  }

  /** Every symbol in use stays desired, exactly unless a removal starts while its symbol is in use. */
  lemma DesiredBreaksExactly(h: Hub, step: Step)
    requires Reachable(h) && AllWanted(h)
    ensures AllWanted(Step1(h, step)) <==> !RemovesInUse(h, step)
  {
    ReachableOk(h);
    var g := Step1(h, step);
    if RemovesInUse(h, step) {
      assert !Wanted(g, step.symbol) by { hide Moved, HubOk; }
    } else {
      hide HubOk, Step1;
      forall y ensures Wanted(g, y) {
        assert Wanted(h, y);
        if InUse(g, y) && !InUse(h, y) {
          NewUse(h, step, y);
        } else if y in h.active && y !in g.active {
          OnlyDropsRemove(h, step, y);
        }
      }
    }
  }

  /** So over a whole run without such a removal, every symbol in use is desired. */
  lemma {:induction false} InUseIsDesired(steps: seq<Step>)
    requires forall i {:trigger steps[i]} | 0 <= i < |steps| :: !RemovesInUse(Run(steps[..i]), steps[i])
    ensures AllWanted(Run(steps))
  {
    if steps != [] {
      var front := steps[..|steps| - 1];
      forall i | 0 <= i < |front| ensures !RemovesInUse(Run(front[..i]), front[i]) {
        assert front[i] == steps[i] && front[..i] == steps[..i];
      }
      InUseIsDesired(front);
      var final := steps[|steps| - 1];
      assert !RemovesInUse(Run(front), final);
      DesiredBreaksExactly(Run(front), final);
      hide RemovesInUse, AllWanted, Step1;
    }
  }

  // ---- what is heard ----

  /** While the loop listens, every symbol in use is confirmed. */
  predicate Attended(h: Hub, y: Symbol) {
    h.loop.Listening? && InUse(h, y) ==> y in h.confirmed
  }

  ghost predicate AllAttended(h: Hub) {
    forall y {:trigger Attended(h, y)} :: Attended(h, y)
  }

  lemma OnlyDropsUnconfirm(h: Hub, step: Step, y: Symbol)
    requires h.loop.Listening? && y in h.confirmed && y !in Step1(h, step).confirmed
    ensures step.StartDrop? && step.symbol == y && CallOf(h.sessions, step.client).Removing? && y in h.active
      && y in CallOf(h.sessions, step.client).todo && h.lock.None?
  {
    hide Settled, Registered, Moved, Has, Entered, Struck, StruckAll, With, InUse;
  }

  /** Listening begins with every desired channel confirmed. */
  lemma ListeningBegins(h: Hub, step: Step)
    requires !h.loop.Listening? && Step1(h, step).loop.Listening?
    ensures OfLoop(step) && Step1(h, step).active == h.active <= Step1(h, step).confirmed
    ensures forall y :: InUse(Step1(h, step), y) <==> InUse(h, y)
  {
    hide Settled, Registered, Moved, Has, Entered, Struck, StruckAll, With;
  }

  lemma StaysAttended(h: Hub, step: Step)
    requires HubOk(h) && AllWanted(h) && AllAttended(h) && !RemovesInUse(h, step)
    ensures AllAttended(Step1(h, step))
  {
    var g := Step1(h, step);
    hide HubOk, Step1, InUse;
    forall y ensures Attended(g, y) {
      assert Wanted(h, y) && Attended(h, y);
      if g.loop.Listening? && InUse(g, y) {
        if !h.loop.Listening? {
          ListeningBegins(h, step);
        } else if !InUse(h, y) {
          NewUse(h, step, y);
        } else if y !in g.confirmed {
          OnlyDropsUnconfirm(h, step, y);
        }
      }
    }
  }

  lemma {:induction false} RunStaysAttended(steps: seq<Step>)
    requires forall i {:trigger steps[i]} | 0 <= i < |steps| :: !RemovesInUse(Run(steps[..i]), steps[i])
    ensures AllWanted(Run(steps)) && AllAttended(Run(steps))
  {
    InUseIsDesired(steps);
    if steps != [] {
      var front := steps[..|steps| - 1];
      forall i | 0 <= i < |front| ensures !RemovesInUse(Run(front[..i]), front[i]) {
        assert front[i] == steps[i] && front[..i] == steps[..i];
      }
      RunStaysAttended(front);
      var final := steps[|steps| - 1];
      assert !RemovesInUse(Run(front), final);
      RunKeeps(front);
      StaysAttended(Run(front), final);
      hide RemovesInUse, AllWanted, AllAttended, Step1, HubOk;
    }
  }

  /** Over a run without the removal of a channel in use, every symbol that some client is subscribed to, or is
      being initialised for, is heard exactly while the fan-out loop listens: only an ended connection, until
      it is replaced, keeps events from the clients. */
  lemma InUseIsHeardExactly(steps: seq<Step>, y: Symbol)
    requires forall i {:trigger steps[i]} | 0 <= i < |steps| :: !RemovesInUse(Run(steps[..i]), steps[i])
    requires InUse(Run(steps), y)
    ensures Heard(Run(steps), y) <==> Run(steps).loop.Listening?
  {
    RunStaysAttended(steps);
    RunKeeps(steps);
    var h := Run(steps);
    assert Attended(h, y);
    hide Run, RegistryOk, LockOk, InUse, RemovesInUse;
  }

  lemma Reaches(h: Hub, step: Step)
    requires Reachable(h)
    ensures Reachable(Step1(h, step))
  {
    hide Step1;
    var steps :| h == Run(steps);
    assert (steps + [step])[..|steps + [step]| - 1] == steps;
    assert Step1(h, step) == Run(steps + [step]);
  }

  // A concrete run with two clients.

  const ONE := Client(0)
  const TWO := Client(1)

  function Two(a: Member, b: Member): map<Client, Member> {
    map[ONE := a, TWO := b]
  }

  lemma TwoMoves(a: Member, b: Member, m: Member)
    ensures With(Two(a, b), ONE, m) == Two(m, b) && With(Two(a, b), TWO, m) == Two(a, m)
    ensures Two(a, b)[ONE] == a && Two(a, b)[TWO] == b && ONE in Two(a, b) && TWO in Two(a, b)
  {
  }

  lemma OneEntry(y: Symbol, c: Client)
    ensures Entered(map[], y, c) == map[y := {c}] && Struck(map[y := {c}], y, c) == map[]
      && Struck(map[], y, c) == map[]
  {
    assert {c} - {c} == {};
    assert map[y := {c}] - {y} == map[];
    assert {} + {c} == {c};
  }

  const FRESH := Member({}, Idle, None, false)

  lemma BothConnect(y: Symbol)
    ensures Reachable(STARTED.(sessions := Two(Member({}, Ensuring(y, 0), None, false), FRESH)))
  {
    assert STARTED == Run([]);
    Reaches(STARTED, Connect(ONE));
    hide Reachable;
    var one := STARTED.(sessions := map[ONE := FRESH]);
    assert Step1(STARTED, Connect(ONE)) == one;
    Reaches(one, Connect(TWO));
    assert Step1(one, Connect(TWO)) == STARTED.(sessions := Two(FRESH, FRESH));
    Reaches(STARTED.(sessions := Two(FRESH, FRESH)), BeginSubscribe(ONE, y));
    TwoMoves(FRESH, FRESH, Member({}, Ensuring(y, 0), None, false));
  }

  /** The channel is wanted before there is a connection; the new connection confirms it. */
  lemma FirstConnection(y: Symbol)
    ensures Reachable(Hub(map[], map[], Two(Member({}, Ensuring(y, 1), None, false), FRESH), {y}, {y}, true, Some({y}),
      None, Listening))
  {
    hide Reachable, Settled;
    BothConnect(y);
    var start := STARTED.(sessions := Two(Member({}, Ensuring(y, 0), None, false), FRESH));
    TwoMoves(Member({}, Ensuring(y, 0), None, false), FRESH, Member({}, Ensuring(y, 1), None, false));
    hide Two, With;
    var wanted := STARTED.(sessions := Two(Member({}, Ensuring(y, 1), None, false), FRESH), active := {y},
      demand := true);
    Reaches(start, Try(ONE));
    assert Step1(start, Try(ONE)) == wanted by { assert {} + {y} == {y}; }
    Reaches(wanted, DemandSeen);
    Reaches(wanted.(loop := Starting), OpenConnection);
    var connecting := wanted.(loop := Connecting, pubsub := Some({}), lock := Some(Fanout));
    assert Step1(wanted.(loop := Starting), OpenConnection) == connecting;
    Reaches(connecting, ConnectAnswered(true, {}));
    assert {} + {y} == {y};
  }

  lemma FirstSubscriber(y: Symbol)
    ensures Reachable(Hub(map[y := {ONE}], map[], Two(Member({y}, Idle, Some(true), false), FRESH), {y}, {y}, true,
      Some({y}), None, Listening))
  {
    hide Reachable;
    FirstConnection(y);
    OneEntry(y, ONE);
    var a, b, c := Member({}, Ensuring(y, 1), None, false), Member({}, Fetching(y), None, false),
      Member({y}, Fetching(y), None, false);
    var wanted := Hub(map[], map[], Two(a, FRESH), {y}, {y}, true, Some({y}), None, Listening);
    TwoMoves(a, FRESH, b);
    TwoMoves(b, FRESH, c);
    TwoMoves(c, FRESH, c.(result := Some(true)));
    TwoMoves(c.(result := Some(true)), FRESH, Member({y}, Idle, Some(true), false));
    hide Two, With, Entered, Struck;
    assert {y} + {y} == {y} && {} + {y} == {y};
    var fetching := wanted.(sessions := Two(b, FRESH), initializing := map[y := {ONE}]);
    Reaches(wanted, Try(ONE));
    assert Step1(wanted, Try(ONE)) == fetching;
    Reaches(fetching, Activate(ONE));
  }

  /** The second client subscribes, and while its snapshot is outstanding the first one leaves. */
  lemma LastSubscriberLeaves(y: Symbol)
    ensures Reachable(Hub(map[], map[y := {TWO}],
      Two(Member({}, Removing({y}, false), Some(true), false), Member({}, Fetching(y), None, false)),
                          {y}, {y}, true, Some({y}), None, Listening))
  {
    hide Reachable, Settled;
    FirstSubscriber(y);
    OneEntry(y, ONE);
    OneEntry(y, TWO);
    var a, b, c := Member({y}, Idle, Some(true), false), Member({}, Ensuring(y, 0), None, false),
      Member({}, Fetching(y), None, false);
    TwoMoves(a, FRESH, b);
    TwoMoves(a, b, c);
    TwoMoves(a, c, Member({}, Idle, Some(true), false));
    TwoMoves(Member({}, Idle, Some(true), false), c, Member({}, Removing({y}, false), Some(true), false));
    hide Two, With, Entered, Struck;
    assert {y} + {y} == {y} && {y} - {y} == {};
    var live := Hub(map[y := {ONE}], map[], Two(a, FRESH), {y}, {y}, true, Some({y}), None, Listening);
    Reaches(live, BeginSubscribe(TWO, y));
    Reaches(live.(sessions := Two(a, b)), Try(TWO));
    Reaches(live.(sessions := Two(a, c), initializing := map[y := {TWO}]), BeginUnsubscribe(ONE, y));
  }

  /** The removal does not look at the initialising client. */
  lemma ChannelRemoved(y: Symbol)
    ensures Reachable(Hub(map[], map[y := {TWO}],
      Two(Member({}, Idle, Some(true), false), Member({}, Fetching(y), None, false)),
                          {}, {}, false, Some({}), None, Listening))
  {
    hide Reachable, Settled;
    LastSubscriberLeaves(y);
    var a, b := Member({}, Removing({y}, false), Some(true), false), Member({}, Fetching(y), None, false);
    var dropping := Hub(map[], map[y := {TWO}], Two(a.(call := Dropping(y, {}, false)), b), {}, {}, false, Some({y}),
      Some(Of(ONE)), Listening);
    TwoMoves(a, b, a.(call := Dropping(y, {}, false)));
    TwoMoves(a.(call := Dropping(y, {}, false)), b, a.(call := Idle));
    hide Two, With, Entered, Struck;
    assert {y} - {y} == {};
    var leaving := Hub(map[], map[y := {TWO}], Two(a, b), {y}, {y}, true, Some({y}), None, Listening);
    Reaches(leaving, StartDrop(ONE, y));
    assert Step1(leaving, StartDrop(ONE, y)) == dropping;
    Reaches(dropping, UnsubscribeAnswered(ONE, true));
  }

  /** Without serialisation it does fail: a client that subscribes while the only subscriber leaves ends up
      subscribed, with its call returning success, to a symbol whose channel is not desired. */
  lemma SubscribedButNotDesired(y: Symbol)
    ensures exists h :: Reachable(h) && Has(h.subscriptions, y, TWO) && CallOf(h.sessions, TWO).Idle? && y !in h.active
  {
    hide Reachable;
    ChannelRemoved(y);
    OneEntry(y, TWO);
    var a, b := Member({}, Idle, Some(true), false), Member({}, Fetching(y), None, false);
    var removed := Hub(map[], map[y := {TWO}], Two(a, b), {}, {}, false, Some({}), None, Listening);
    TwoMoves(a, b, b);
    Reaches(removed, Activate(TWO));
    hide Entered, Struck, Two;
    assert Has(Step1(removed, Activate(TWO)).subscriptions, y, TWO);
  }

  /** Nor is a lost connection noticed: while the fan-out loop waits to close it, a second client's subscribe
      finds the channel confirmed, gets its snapshot and succeeds, and hears nothing. */
  lemma SubscribedUnheard(y: Symbol) returns (h: Hub)
    ensures Reachable(h) && h.loop.Failing? && h.lock.None? && CallOf(h.sessions, TWO) == Ensuring(y, 0)
    ensures CallOf(Step1(h, Try(TWO)).sessions, TWO) == Fetching(y) && !Heard(Step1(h, Try(TWO)), y)
    ensures var g := Step1(Step1(h, Try(TWO)), Activate(TWO));
      && Has(g.subscriptions, y, TWO) && TWO in g.sessions && g.sessions[TWO].result == Some(true) && !Heard(g, y)
      && Step1(g, Close).pubsub == None && Has(Step1(g, Close).subscriptions, y, TWO)
  {
    FirstSubscriber(y);
    hide Reachable, Settled;
    var a, b := Member({y}, Idle, Some(true), false), Member({}, Ensuring(y, 0), None, false);
    var live := Hub(map[y := {ONE}], map[], Two(a, FRESH), {y}, {y}, true, Some({y}), None, Listening);
    var deaf := live.(loop := Failing, pubsub := Some({}));
    Reaches(live, ListenEnds({}));
    assert Step1(live, ListenEnds({})) == deaf by { assert {} * {y} == {}; }
    TwoMoves(a, FRESH, b);
    h := deaf.(sessions := Two(a, b));
    Reaches(deaf, BeginSubscribe(TWO, y));
    assert Step1(deaf, BeginSubscribe(TWO, y)) == h by { hide Two, With; }
    GoesOnUnheard(h, y);
  }

  lemma GoesOnUnheard(h: Hub, y: Symbol)
    requires CallOf(h.sessions, TWO) == Ensuring(y, 0) && y in h.confirmed && h.lock.None? && h.loop.Failing?
    ensures CallOf(Step1(h, Try(TWO)).sessions, TWO) == Fetching(y) && !Heard(Step1(h, Try(TWO)), y)
    ensures var g := Step1(Step1(h, Try(TWO)), Activate(TWO));
      && Has(g.subscriptions, y, TWO) && TWO in g.sessions && g.sessions[TWO].result == Some(true) && !Heard(g, y)
      && Step1(g, Close).pubsub == None && Has(Step1(g, Close).subscriptions, y, TWO)
  {
    hide Entered, Struck, Has, InUse;
  }
}
