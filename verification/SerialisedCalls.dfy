/** When subscribe, unsubscribe and clean-up calls run one at a time, with fan-out and reconnects interleaving
    freely, the desired channels between calls are exactly those of symbols with a subscriber, and a failed
    subscribe changes nothing. */
module SerialisedCalls {
  import opened Events
  import opened Registries
  import opened RegistryGuarantees

  predicate Busy(call: Call) {
    !call.Idle? && !call.Gone? && !call.Abandoned?
  }

  predicate Begins(step: Step) {
    step.BeginSubscribe? || step.BeginUnsubscribe? || step.Disconnect?
  }

  ghost predicate Quiet(h: Hub) {
    forall c {:trigger CallOf(h.sessions, c)} :: !Busy(CallOf(h.sessions, c))
  }

  ghost function SerialStep1(h: Hub, step: Step): Hub {
    if Begins(step) && !Quiet(h) then h else Step1(h, step)
  }

  ghost function SerialRun(h: Hub, steps: seq<Step>): Hub {
    if steps == [] then h else SerialStep1(SerialRun(h, steps[..|steps| - 1]), steps[|steps| - 1])
  }

  /** What the call in progress may still hold desired, or is about to give up. */
  predicate MayHold(call: Call, y: Symbol) {
    match call
    case Ensuring(z, _) => y == z
    case Asking(z, _) => y == z
    case Fetching(z) => y == z
    case Removing(todo, _) => y in todo
    case Dropping(_, todo, _) => y in todo
    case _ => false
  }

  ghost predicate Accounted(subscriptions: Registry, active: set<Symbol>, call: Call) {
    && (forall y {:trigger y in subscriptions} | y in subscriptions :: y in active)
    && (forall y {:trigger y in active} | y in active :: y in subscriptions || MayHold(call, y))
    && (call.Asking? || call.Fetching? ==> call.symbol in active)
    && (call.Removing? || call.Dropping? ==>
         forall y {:trigger y in subscriptions} | y in subscriptions :: y !in call.todo)
  }

  function CallIn(h: Hub, who: Option<Client>): Call {
    if who.Some? then CallOf(h.sessions, who.value) else Idle
  }

  /** At most `who` is in the middle of a call. */
  ghost predicate Alone(sessions: map<Client, Member>, who: Option<Client>) {
    && (forall c {:trigger CallOf(sessions, c)} :: Busy(CallOf(sessions, c)) ==> who == Some(c))
    && (who.Some? ==> Busy(CallOf(sessions, who.value)))
  }

  ghost predicate Serial(h: Hub, who: Option<Client>) {
    HubOk(h) && Alone(h.sessions, who) && Accounted(h.subscriptions, h.active, CallIn(h, who))
  }

  function Still(h: Hub, c: Client): Option<Client> {
    if Busy(CallOf(h.sessions, c)) then Some(c) else None
  }

  // ---- a call's own steps ----

  predicate OwnStep(step: Step) {
    step.Try? || step.SubscribeAnswered? || step.GiveUp? || step.SnapshotFails? || step.Activate? || step.StartDrop?
      || step.UnsubscribeAnswered?
  }

  lemma OwnStepAlone(h: Hub, step: Step)
    requires OwnStep(step) && Alone(h.sessions, Some(step.client))
    ensures Alone(Step1(h, step).sessions, Still(Step1(h, step), step.client))
  {
    hide Step1, Busy;
    var sessions := Step1(h, step).sessions;
    forall d | d != step.client ensures CallOf(sessions, d) == CallOf(h.sessions, d) {
      OthersStay(h, step, d);
    }
  }

  lemma NobodyInitialises(subscriptions: Registry, initializing: Registry, sessions: map<Client, Member>, y: Symbol)
    requires RegistryOk(subscriptions, initializing, sessions)
    requires forall c {:trigger CallOf(sessions, c)} :: CallOf(sessions, c) != Fetching(y)
    ensures y !in initializing
  {
    if y in initializing {
      var c :| c in initializing[y];
      assert Has(initializing, y, c);
    }
  }

  lemma EntryKeys(r: Registry, y: Symbol, c: Client)
    ensures forall z :: z in Entered(r, y, c) <==> z in r || z == y
    ensures forall z :: z in Struck(r, y, c) ==> z in r
    ensures forall z :: z in r && z != y ==> z in Struck(r, y, c)
  {
  }

  lemma TryAccounted(h: Hub, c: Client, y: Symbol, tries: nat)
    requires c in h.sessions && Accounted(h.subscriptions, h.active, Ensuring(y, tries))
    ensures var g := Tried(h, c, y, tries); Accounted(g.subscriptions, g.active, CallOf(g.sessions, c))
  {
    hide Entered;
  }

  lemma AnswerAccounted(h: Hub, c: Client, y: Symbol, tries: nat, ok: bool, landed: bool)
    requires c in h.sessions && h.pubsub.Some? && Accounted(h.subscriptions, h.active, Asking(y, tries))
    ensures var g := SubscribeReturned(h, c, y, tries, ok, landed);
      Accounted(g.subscriptions, g.active, CallOf(g.sessions, c))
  {
    hide Entered;
  }

  lemma SettleAccounted(h: Hub, c: Client, y: Symbol)
    requires Serial(h, Some(c)) && c in h.sessions
    requires CallOf(h.sessions, c) == Fetching(y)
      || (CallOf(h.sessions, c).Ensuring? && CallOf(h.sessions, c).symbol == y)
    ensures var g := Settled(h, c, y, false); Accounted(g.subscriptions, g.active, CallOf(g.sessions, c))
  {
    var g := Settled(h, c, y, false);
    SettleKeepsRegistry(h, c, y, false);
    assert forall d {:trigger CallOf(g.sessions, d)} :: CallOf(g.sessions, d) != Fetching(y) by {
      hide HubOk, Accounted, Struck;
    }
    NobodyInitialises(g.subscriptions, g.initializing, g.sessions, y);
    hide HubOk, Struck, Alone;
  }

  lemma ActivateAccounted(h: Hub, c: Client, y: Symbol)
    requires c in h.sessions && Accounted(h.subscriptions, h.active, Fetching(y))
    ensures var g := Activated(h, c, y); CallOf(g.sessions, c).Idle? && Accounted(g.subscriptions, g.active, Idle)
  {
    EntryKeys(h.subscriptions, y, c);
    hide Entered, Struck, Has;
  }

  lemma DropAccounted(h: Hub, c: Client, y: Symbol, todo: set<Symbol>, leaving: bool)
    requires c in h.sessions && Accounted(h.subscriptions, h.active, Removing(todo, leaving)) && y in todo
    ensures var g := DropStarted(h, c, y, todo, leaving); Accounted(g.subscriptions, g.active, CallOf(g.sessions, c))
  {
    assert forall z :: z in todo - {y} <==> z in todo && z != y;
    hide With;
  }

  lemma DropReturnAccounted(h: Hub, c: Client, y: Symbol, todo: set<Symbol>, leaving: bool, landed: bool)
    requires c in h.sessions && h.pubsub.Some? && Accounted(h.subscriptions, h.active, Dropping(y, todo, leaving))
    ensures var g := DropReturned(h, c, y, todo, leaving, landed);
      Accounted(g.subscriptions, g.active, CallOf(g.sessions, c))
  {
  }

  lemma OwnStepAccounted(h: Hub, step: Step)
    requires OwnStep(step) && Serial(h, Some(step.client))
    ensures var g := Step1(h, step); Accounted(g.subscriptions, g.active, CallOf(g.sessions, step.client))
  {
    var c, call := step.client, CallOf(h.sessions, step.client);
    hide HubOk, Accounted, Alone, Tried, SubscribeReturned, Settled, Activated, DropStarted, DropReturned;
    match step
    case Try(_) => if call.Ensuring? { TryAccounted(h, c, call.symbol, call.tries); }
    case SubscribeAnswered(_, ok, landed) =>
      if call.Asking? && h.pubsub.Some? { AnswerAccounted(h, c, call.symbol, call.tries, ok, landed); }
    case GiveUp(_) => if call.Ensuring? { SettleAccounted(h, c, call.symbol); }
    case SnapshotFails(_) => if call.Fetching? { SettleAccounted(h, c, call.symbol); }
    case Activate(_) => if call.Fetching? { ActivateAccounted(h, c, call.symbol); }
    case StartDrop(_, y) => if call.Removing? && y in call.todo { DropAccounted(h, c, y, call.todo, call.leaving); }
    case UnsubscribeAnswered(_, landed) =>
      if call.Dropping? && h.pubsub.Some? { DropReturnAccounted(h, c, call.symbol, call.todo, call.leaving, landed); }
  }

  // ---- the beginning of a call, and everything else ----

  lemma {:induction false} KeysLeft(r: Registry, c: Client)
    requires NoneEmpty(r)
    ensures forall y :: y in StruckAll(r, c) ==> y in r
    ensures forall y :: y in r && y !in StruckAll(r, c) ==> Has(r, y, c)
    ensures forall y :: y in r && y !in Struck(r, y, c) ==> Has(r, y, c)
  {
    forall y | y in r && r[y] - {c} == {} ensures c in r[y] {
      var d :| d in r[y];
      assert d == c || d in r[y] - {c};
    }
  }

  lemma UnsubscribeAccounted(h: Hub, c: Client, y: Symbol)
    requires c in h.sessions && Accounted(h.subscriptions, h.active, Idle)
    ensures var g := Unsubscribed(h, c, y); Accounted(g.subscriptions, g.active, CallOf(g.sessions, c))
  {
    EntryKeys(h.subscriptions, y, c);
    hide Struck, Has;
  }

  lemma RestHolds(subscriptions: Registry, active: set<Symbol>, todo: set<Symbol>, leaving: bool)
    requires forall y :: y in todo ==> y !in subscriptions
    requires forall y :: y in subscriptions ==> y in active
    requires forall y :: y in active ==> y in subscriptions || y in todo
    ensures Accounted(subscriptions, active, Rest(todo, leaving))
  {
  }

  lemma CleanupAccounted(h: Hub, c: Client)
    requires HubOk(h) && CallOf(h.sessions, c).Idle? && Accounted(h.subscriptions, h.active, Idle)
    ensures var g := CleanedUp(h, c); Accounted(g.subscriptions, g.active, CallOf(g.sessions, c))
  {
    KeysLeft(h.subscriptions, c);
    forall y | Has(h.subscriptions, y, c) ensures y in h.sessions[c].subscriptions {
      assert Subscribed(h.sessions, c, y);
    }
    hide LockOk, RegistryOk, StruckAll, Has, LeftBehind;
    RestHolds(StruckAll(h.subscriptions, c), h.active, LeftBehind(h, c), true);
  }

  lemma BeginAlone(h: Hub, step: Step)
    requires Begins(step) && Alone(h.sessions, None)
    ensures Alone(Step1(h, step).sessions, Still(Step1(h, step), step.client))
  {
    hide Step1, Busy;
    var sessions := Step1(h, step).sessions;
    forall d | d != step.client ensures CallOf(sessions, d) == CallOf(h.sessions, d) {
      OthersStay(h, step, d);
    }
  }

  lemma BeginAccounted(h: Hub, step: Step)
    requires Begins(step) && Serial(h, None)
    ensures var g := Step1(h, step); Accounted(g.subscriptions, g.active, CallOf(g.sessions, step.client))
  {
    var c := step.client;
    hide HubOk, Accounted, Unsubscribed, CleanedUp;
    if CallOf(h.sessions, c).Idle? {
      match step
      case BeginUnsubscribe(_, y) => UnsubscribeAccounted(h, c, y);
      case Disconnect(_) => CleanupAccounted(h, c);
      case _ =>
    }
  }

  lemma LoopStepKeeps(h: Hub, step: Step, who: Option<Client>)
    requires Serial(h, who) && (OfLoop(step) || step.Connect? || step.DispatchDies?)
    ensures Serial(Step1(h, step), who)
  {
    StepKeeps(h, step);
    if step.Connect? && step.client !in h.sessions {
      assert CallOf(h.sessions, step.client).Gone?;
    }
    hide HubOk, Accounted;
  }

  lemma IdleStepsDoNothing(h: Hub, step: Step)
    requires OwnStep(step) && !Busy(CallOf(h.sessions, step.client))
    ensures Step1(h, step) == h
  {
  }

  lemma EndedHoldsNothing(subscriptions: Registry, active: set<Symbol>, call: Call)
    requires Accounted(subscriptions, active, call)
    ensures Accounted(subscriptions, active, if Busy(call) then call else Idle)
  {
  }

  lemma SerialStepKeeps(h: Hub, step: Step, who: Option<Client>) returns (next: Option<Client>)
    requires Serial(h, who)
    ensures Serial(SerialStep1(h, step), next)
    ensures next == None || next == who || (Begins(step) && next == Some(step.client))
  {
    next := who;
    hide HubOk, Accounted, Step1;
    if OfLoop(step) || step.Connect? || step.DispatchDies? {
      LoopStepKeeps(h, step, who);
    } else if Begins(step) {
      assert Quiet(h) ==> who == None;
      if Quiet(h) {
        next := Still(Step1(h, step), step.client);
        BeginAlone(h, step);
        BeginAccounted(h, step);
        StepKeeps(h, step);
        EndedHoldsNothing(Step1(h, step).subscriptions, Step1(h, step).active,
          CallOf(Step1(h, step).sessions, step.client));
      }
    } else if who == Some(step.client) {
      next := Still(Step1(h, step), step.client);
      OwnStepAlone(h, step);
      OwnStepAccounted(h, step);
      StepKeeps(h, step);
      EndedHoldsNothing(Step1(h, step).subscriptions, Step1(h, step).active,
        CallOf(Step1(h, step).sessions, step.client));
    } else {
      IdleStepsDoNothing(h, step);
    }
  }

  lemma {:induction false} SerialRunKeeps(steps: seq<Step>) returns (who: Option<Client>)
    ensures Serial(SerialRun(STARTED, steps), who)
  {
    who := None;
    if steps != [] {
      hide Serial, SerialStep1;
      var before := SerialRunKeeps(steps[..|steps| - 1]);
      who := SerialStepKeeps(SerialRun(STARTED, steps[..|steps| - 1]), steps[|steps| - 1], before);
    }
  }

  // ---- the guarantees ----

  /** At call boundaries the desired channels are exactly those of symbols with a subscriber, and nothing is
      being initialised. */
  lemma DesiredExactlyWhenSubscribed(steps: seq<Step>)
    requires Quiet(SerialRun(STARTED, steps))
    ensures var h := SerialRun(STARTED, steps);
      && (forall y :: y in h.active <==> y in h.subscriptions)
      && (forall y :: y !in h.initializing)
  {
    var h := SerialRun(STARTED, steps);
    var who := SerialRunKeeps(steps);
    forall y ensures y !in h.initializing {
      NobodyInitialises(h.subscriptions, h.initializing, h.sessions, y);
    }
  }

  lemma SerialWants(h: Hub, who: Option<Client>, y: Symbol)
    requires Serial(h, who)
    ensures Wanted(h, y)
  {
    if y in h.initializing {
      var c :| c in h.initializing[y];
      assert Has(h.initializing, y, c) && CallOf(h.sessions, c) == Fetching(y);
    }
    hide HubOk;
  }

  /** Calls that wait for each other never give up a channel in use. */
  lemma SerialNeverRemovesInUse(h: Hub, who: Option<Client>, step: Step)
    requires Serial(h, who)
    ensures !RemovesInUse(h, step)
  {
    if RemovesInUse(h, step) {
      assert who == Some(step.client);
      NobodyInitialises(h.subscriptions, h.initializing, h.sessions, step.symbol);
    }
  }

  lemma {:induction false} SerialRunAttends(steps: seq<Step>)
    ensures AllAttended(SerialRun(STARTED, steps))
  {
    if steps != [] {
      var h, step := SerialRun(STARTED, steps[..|steps| - 1]), steps[|steps| - 1];
      SerialRunAttends(steps[..|steps| - 1]);
      var who := SerialRunKeeps(steps[..|steps| - 1]);
      hide AllAttended, Step1, RemovesInUse, Wanted, Accounted, Alone;
      forall y ensures Wanted(h, y) {
        SerialWants(h, who, y);
      }
      SerialNeverRemovesInUse(h, who, step);
      hide HubOk;
      StaysAttended(h, step);
    }
  }

  /** When calls run one at a time, every subscribed client hears its symbols whenever the fan-out loop
      listens, whatever connections were lost before. */
  lemma SubscribedIsHeardExactly(steps: seq<Step>, y: Symbol)
    requires y in SerialRun(STARTED, steps).subscriptions
    ensures var h := SerialRun(STARTED, steps); Heard(h, y) <==> h.loop.Listening?
  {
    var h := SerialRun(STARTED, steps);
    SerialRunAttends(steps);
    var who := SerialRunKeeps(steps);
    assert Attended(h, y);
    hide SerialRun, RegistryOk, LockOk, Accounted, Alone;
  }

  lemma {:induction false} SerialRunAppends(h: Hub, a: seq<Step>, b: seq<Step>)
    ensures SerialRun(h, a + b) == SerialRun(SerialRun(h, a), b)
  {
    if b == [] {
      assert a + b == a;
    } else {
      SerialRunAppends(h, a, b[..|b| - 1]);
      assert (a + b)[..|a + b| - 1] == a + b[..|b| - 1];
      hide SerialStep1;
    }
  }

  predicate Trying(call: Call, y: Symbol) {
    (call.Ensuring? || call.Asking? || call.Fetching?) && call.symbol == y
  }

  predicate Ending(call: Call) {
    call.Idle? || ((call.Removing? || call.Dropping?) && !call.leaving)
  }

  /** Success registers the client under the symbol and does no more; failure changes nothing. */
  predicate Outcome(was: Member, m: Member, y: Symbol, c: Client, before: Registry, after: Registry) {
    && m.result.Some?
    && if m.result.value then after == Entered(before, y, c) && m.subscriptions == was.subscriptions + {y}
       else after == before && m.subscriptions == was.subscriptions
  }

  /** How far a subscribe of `c` to `y` has come, given how client and registry were when it began. */
  predicate UnderWay(was: Member, m: Member, y: Symbol, c: Client, before: Registry, after: Registry) {
    if Trying(m.call, y) then after == before && m.subscriptions == was.subscriptions
    else Ending(m.call) && Outcome(was, m, y, c, before, after)
  }

  lemma TryGoesOn(g: Hub, c: Client, y: Symbol, tries: nat)
    requires c in g.sessions
    ensures var t := Tried(g, c, y, tries);
      c in t.sessions && Trying(t.sessions[c].call, y) && t.subscriptions == g.subscriptions
        && t.sessions[c].subscriptions == g.sessions[c].subscriptions
  {
  }

  lemma AnswerGoesOn(g: Hub, c: Client, y: Symbol, tries: nat, ok: bool, landed: bool)
    requires c in g.sessions && g.pubsub.Some?
    ensures var t := SubscribeReturned(g, c, y, tries, ok, landed);
      c in t.sessions && Trying(t.sessions[c].call, y) && t.subscriptions == g.subscriptions
        && t.sessions[c].subscriptions == g.sessions[c].subscriptions
  {
  }

  lemma SettledEnds(g: Hub, c: Client, y: Symbol, result: bool)
    requires c in g.sessions
    ensures var t := Settled(g, c, y, result);
      && c in t.sessions && Ending(t.sessions[c].call) && t.sessions[c].result == Some(result)
      && t.subscriptions == g.subscriptions && t.sessions[c].subscriptions == g.sessions[c].subscriptions
  {
    hide Struck, InUse;
  }

  lemma ActivatedEnds(g: Hub, c: Client, y: Symbol)
    requires c in g.sessions
    ensures var t := Activated(g, c, y);
      && c in t.sessions && Ending(t.sessions[c].call) && t.sessions[c].result == Some(true)
      && t.subscriptions == Entered(g.subscriptions, y, c)
      && t.sessions[c].subscriptions == g.sessions[c].subscriptions + {y}
  {
    var entered := g.(subscriptions := Entered(g.subscriptions, y, c),
                      sessions := With(g.sessions, c,
                        g.sessions[c].(subscriptions := g.sessions[c].subscriptions + {y})));
    SettledEnds(entered, c, y, true);
    hide Settled, Entered;
  }

  lemma RemovalGoesOn(g: Hub, c: Client, y: Symbol, todo: set<Symbol>, landed: bool)
    requires c in g.sessions
    ensures var t := DropStarted(g, c, y, todo, false);
      && c in t.sessions && Ending(t.sessions[c].call) && t.sessions[c].result == g.sessions[c].result
      && t.subscriptions == g.subscriptions && t.sessions[c].subscriptions == g.sessions[c].subscriptions
    ensures g.pubsub.Some? ==> var t := DropReturned(g, c, y, todo, false, landed);
      && c in t.sessions && Ending(t.sessions[c].call) && t.sessions[c].result == g.sessions[c].result
      && t.subscriptions == g.subscriptions && t.sessions[c].subscriptions == g.sessions[c].subscriptions
  {
  }

  lemma OwnStepGoesOn(was: Member, g: Hub, c: Client, y: Symbol, before: Registry, step: Step)
    requires c in g.sessions && UnderWay(was, g.sessions[c], y, c, before, g.subscriptions)
    requires OwnStep(step) && step.client == c
    ensures var t := Step1(g, step);
      c in t.sessions && UnderWay(was, t.sessions[c], y, c, before, t.subscriptions)
  {
    var call := CallOf(g.sessions, c);
    hide Tried, SubscribeReturned, Settled, Activated, DropStarted, DropReturned, Entered;
    match step
    case Try(_) => if call.Ensuring? { TryGoesOn(g, c, y, call.tries); }
    case SubscribeAnswered(_, ok, landed) =>
      if call.Asking? && g.pubsub.Some? { AnswerGoesOn(g, c, y, call.tries, ok, landed); }
    case GiveUp(_) => SettledEnds(g, c, y, false);
    case SnapshotFails(_) => SettledEnds(g, c, y, false);
    case Activate(_) => ActivatedEnds(g, c, y);
    case StartDrop(_, z) => if call.Removing? { RemovalGoesOn(g, c, z, call.todo, false); }
    case UnsubscribeAnswered(_, landed) => if call.Dropping? { RemovalGoesOn(g, c, call.symbol, call.todo, landed); }
  }

  lemma OtherStepGoesOn(g: Hub, c: Client, step: Step)
    requires c in g.sessions && (OfLoop(step) || step.Connect? || step.DispatchDies?)
    ensures var t := Step1(g, step);
      c in t.sessions && t.sessions[c] == g.sessions[c].(died := t.sessions[c].died)
      && t.subscriptions == g.subscriptions
  {
  }

  lemma {:induction false} SubscribeGoesOn(h: Hub, c: Client, y: Symbol, steps: seq<Step>) returns (who: Option<Client>)
    requires Serial(h, None) && CallOf(h.sessions, c).Idle?
    requires forall i | 0 <= i < |steps| :: !Begins(steps[i])
    ensures var g := SerialRun(SerialStep1(h, BeginSubscribe(c, y)), steps);
      && Serial(g, who) && (who == None || who == Some(c))
      && c in g.sessions && UnderWay(h.sessions[c], g.sessions[c], y, c, h.subscriptions, g.subscriptions)
  {
    var begun := SerialStep1(h, BeginSubscribe(c, y));
    if steps == [] {
      hide HubOk, Accounted;
      assert Quiet(h);
      who := SerialStepKeeps(h, BeginSubscribe(c, y), None);
    } else {
      var front, step := steps[..|steps| - 1], steps[|steps| - 1];
      var before := SubscribeGoesOn(h, c, y, front);
      var g := SerialRun(begun, front);
      hide HubOk, Accounted, Step1, UnderWay;
      who := SerialStepKeeps(g, step, before);
      assert !Begins(step);
      if OfLoop(step) || step.Connect? || step.DispatchDies? {
        OtherStepGoesOn(g, c, step);
      } else if step.client == c {
        OwnStepGoesOn(h.sessions[c], g, c, y, h.subscriptions, step);
      } else {
        IdleStepsDoNothing(g, step);
      }
    }
  }

  /** A subscribe call on its own, once it has returned: success entered exactly this client under exactly
      this symbol, whose channel is then desired; failure left every membership and the desired channels as
      they were, and no initialisation entry. */
  lemma SubscribeSucceedsOrChangesNothing(past: seq<Step>, c: Client, y: Symbol, steps: seq<Step>)
    requires var h := SerialRun(STARTED, past); Quiet(h) && CallOf(h.sessions, c).Idle?
    requires forall i | 0 <= i < |steps| :: !Begins(steps[i])
    requires Quiet(SerialRun(SerialRun(STARTED, past), [BeginSubscribe(c, y)] + steps))
    ensures var h, g := SerialRun(STARTED, past), SerialRun(SerialRun(STARTED, past), [BeginSubscribe(c, y)] + steps);
      && c in h.sessions && c in g.sessions && g.sessions[c].result.Some?
      && (if g.sessions[c].result.value then
            && (forall z, d :: Has(g.subscriptions, z, d) <==> Has(h.subscriptions, z, d) || (z == y && d == c))
            && g.sessions[c].subscriptions == h.sessions[c].subscriptions + {y} && y in g.active
          else
            && g.subscriptions == h.subscriptions && g.active == h.active
            && g.sessions[c].subscriptions == h.sessions[c].subscriptions)
      && forall z :: z !in g.initializing
  {
    var h := SerialRun(STARTED, past);
    var begin := [BeginSubscribe(c, y)];
    var all := past + (begin + steps);
    SerialRunAppends(STARTED, past, begin + steps);
    SerialRunAppends(h, begin, steps);
    assert begin[..0] == [] && SerialRun(h, begin) == SerialStep1(h, BeginSubscribe(c, y));
    DesiredExactlyWhenSubscribed(past);
    DesiredExactlyWhenSubscribed(all);
    var none := SerialRunKeeps(past);
    var who := SubscribeGoesOn(h, c, y, steps);
    hide HubOk, SerialStep1, Has, Entered, Accounted;
    var g := SerialRun(STARTED, all);
    assert UnderWay(h.sessions[c], g.sessions[c], y, c, h.subscriptions, g.subscriptions);
    assert !Busy(CallOf(g.sessions, c));
    assert g.sessions[c].result == Some(true) ==> y in g.subscriptions by { EntryKeys(h.subscriptions, y, c); }
  }
}
