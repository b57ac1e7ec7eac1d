/** One engine process and the world of a client together. What the hand-off takes from its environment, the
    engine's writes and publications, is what the engine machine does, with its polling, retries,
    acknowledgements, commits and shutdown; the snapshots a client reads are those the engine stored. */
module Composition {
  import opened Events
  import opened Sequencing
  import opened Aggregation
  import opened Session
  import Streams
  import opened HandOff
  import E = EngineRuns
  import EngineGuarantees
  import GapHealing
  import Gapless

  datatype System = System(engine: E.Engine, world: World)

  datatype Act = EngineDoes(step: E.Step) | WorldDoes(move: WorldStep)

  // ---- the two machines, step by step ----

  /** What the hand-off makes of a step of the engine. */
  function Seen(s: E.Engine, step: E.Step): Option<WorldStep> {
    match step
    case UpdateSnapshot(answer) =>
      if s.up && s.task.Busy? && !s.task.updated && !answer.Refused? then Some(Update(s.task.item.event)) else None
    case PublishEvent(answer) =>
      if s.up && s.task.Busy? && s.task.updated && !answer.Refused? then Some(PublishCurrent(s.task.item.event.symbol))
      else None
    case _ => None
  }

  /** One process: it neither crashes nor starts again. The world writes and publishes nothing by itself. */
  function Act1(log: Log, x: System, act: Act): System {
    match act
    case EngineDoes(step) =>
      if step.Start? || step.Crash? then x
      else
        var seen := Seen(x.engine, step);
        System(E.Step1(log, x.engine, step), if seen.Some? then WorldStep1(x.world, seen.value) else x.world)
    case WorldDoes(move) =>
      if move.Update? || move.PublishCurrent? then x else x.(world := WorldStep1(x.world, move))
  }

  function Begun(log: Log, base: map<TopicPartition, nat>, fallback: map<TopicPartition, nat>,
                 mode: Mode, policy: Policy): System
  {
    System(E.Started(log, E.Deployed(base), fallback), Launched(mode, policy))
  }

  function Run(log: Log, x: System, acts: seq<Act>): System {
    if acts == [] then x else Act1(log, Run(log, x, acts[..|acts| - 1]), acts[|acts| - 1])
  }

  // ---- what ties them ----

  /** `q` is the next record of `p`'s symbol after `p` in their partition. */
  ghost predicate NextOf(log: Log, p: Position, q: Position) {
    && ValidAt(log, p) && ValidAt(log, q) && p.tp == q.tp && p.offset < q.offset
    && EventAt(log, p).symbol == EventAt(log, q).symbol
    && forall r {:trigger ValidAt(log, r)} | ValidAt(log, r) && r.tp == p.tp && p.offset < r.offset < q.offset ::
         EventAt(log, r).symbol != EventAt(log, p).symbol
  }

  /** The feed numbers each symbol's events consecutively. */
  ghost predicate Counted(log: Log) {
    forall p, q {:trigger NextOf(log, p, q)} | NextOf(log, p, q) :: EventAt(log, q).seqNo == EventAt(log, p).seqNo + 1
  }

  /** The record is the one being processed, or given up. */
  predicate InHand(task: E.Task, p: Position) {
    !task.Waiting? && task.item.Place() == p
  }

  function NewestOf(fed: map<Symbol, seq<MarketEvent>>, y: Symbol): Option<MarketEvent> {
    if y in fed && fed[y] != [] then Some(fed[y][|fed[y]| - 1]) else None
  }

  /** The newest event the world saw of a symbol is the one its snapshot was written from, by a record of this
      process; that record is finished and the event published, or it is still in hand. */
  ghost predicate Ties(log: Log, newest: Option<MarketEvent>, isPublished: bool, stored: E.Stored,
                       task: E.Task, done: set<Position>, runStart: map<TopicPartition, nat>)
  {
    var o := stored.origin;
    && newest.Some? && SnapshotOf(newest.value) == stored.data
    && ValidAt(log, o) && newest.value.seqNo == EventAt(log, o).seqNo
    && o.tp in runStart && runStart[o.tp] <= o.offset
    && ((o in done && isPublished) || (InHand(task, o) && newest.value == task.item.event))
  }

  ghost predicate TiedOn(log: Log, s: E.Engine, w: World, y: Symbol) {
    if y in s.snapshots then
      Ties(log, NewestOf(w.fed, y), y in w.published, s.snapshots[y], s.task, s.done, s.runStart)
    else y !in w.fed
  }

  /** The engine's Redis and the world's are the same. */
  ghost predicate Tied(log: Log, s: E.Engine, w: World) {
    s.up && forall y {:trigger TiedOn(log, s, w, y)} :: TiedOn(log, s, w, y)
  }

  // ---- the record in hand ----

  /** It is in flight before every other, valid, read by this process, and not finished. */
  ghost predicate First(log: Log, s: E.Engine, c: Consumed) {
    && E.Genuine(log, c) && c.Place() in s.open && c.Place() !in s.done
    && c.tp in s.runStart && c.tp in s.position && s.runStart[c.tp] <= c.offset < s.position[c.tp]
    && (forall p | p in s.open && p.tp == c.tp :: c.offset <= p.offset)
    && (forall p | p in s.done && p.tp == c.tp :: p.offset < c.offset)
  }

  lemma HeadIsFirst(log: Log, s: E.Engine, c: Consumed, rest: seq<Consumed>)
    requires E.FlightOk(log, s.position, [c] + rest, s.open) && E.DoneOk(log, s.position, [c] + rest, s.done)
    requires E.PolledOk(log, s.runStart, s.position, s.open, s.done)
    ensures First(log, s, c)
  {
    var flight := [c] + rest;
    assert flight[0] == c && c in flight;
    E.FreshInFlight(log, s, c, rest);
    EngineGuarantees.OpenIsFlight(log, s.position, flight, s.open);
    hide E.PolledOk, E.Genuine;
    forall p | p in s.open && p.tp == c.tp ensures c.offset <= p.offset {
      var d :| d in flight && d.Place() == p;
      var i :| 0 <= i < |flight| && flight[i] == d;
    }
  }

  lemma InHandIsFirst(log: Log, s: E.Engine)
    requires E.Inv(log, s) && s.up && !s.task.Waiting?
    ensures First(log, s, s.task.item)
  {
    hide E.RangesOk, E.SinceOk, E.FlightOk, E.DoneOk, E.EffectsOk, E.PolledOk, E.CursorsOk, E.AcksOk, E.CommitsOk,
      E.AheadOk, E.LedgerOk, E.DurableOk, First;
    var c, rest := s.task.item, s.bridge.queue + E.ThreadItems(s.thread);
    assert E.Flight(s) == [c] + rest;
    HeadIsFirst(log, s, c, rest);
  }

  /** When the last written record of a symbol is finished, the one in hand of that symbol comes next. */
  lemma InHandIsNext(log: Log, s: E.Engine, c: Consumed, o: Position)
    requires E.OneHome(log) && First(log, s, c) && E.PolledOk(log, s.runStart, s.position, s.open, s.done)
    requires o in s.done && ValidAt(log, o) && EventAt(log, o).symbol == c.event.symbol
    requires o.tp in s.runStart && s.runStart[o.tp] <= o.offset
    requires forall r | r in s.done && ValidAt(log, r) && EventAt(log, r).symbol == c.event.symbol ::
      r.offset <= o.offset
    ensures NextOf(log, o, c.Place())
  {
    assert o.tp == c.Place().tp;
    forall r | ValidAt(log, r) && r.tp == o.tp && o.offset < r.offset < c.offset
      ensures EventAt(log, r).symbol != c.event.symbol
    {
      assert r in s.open || r in s.done;
    }
  }

  /** No finished record of the symbol lies after the one its snapshot was written from. */
  lemma OriginIsLast(log: Log, s: E.Engine, y: Symbol)
    requires E.EffectsOk(log, s.done, s.published, s.snapshots, s.task) && y in s.snapshots
    ensures forall r | r in s.done && ValidAt(log, r) && EventAt(log, r).symbol == y ::
      r.offset <= s.snapshots[y].origin.offset
  {
    forall r | r in s.done && ValidAt(log, r) && EventAt(log, r).symbol == y
      ensures r.offset <= s.snapshots[y].origin.offset
    {
      assert E.Effected(log, r, s.published, s.snapshots);
    }
  }

  /** A snapshot is stored under its record's symbol. */
  lemma OriginIsOn(log: Log, s: E.Engine, y: Symbol)
    requires E.DurableOk(log, s.since, s.committed, s.snapshots, s.published) && y in s.snapshots
    ensures ValidAt(log, s.snapshots[y].origin) && EventAt(log, s.snapshots[y].origin).symbol == y
  {
    assert E.Backed(log, y, s.snapshots[y]);
  }

  // ---- every step keeps them tied ----

  predicate Unseen(step: E.Step) {
    !step.Start? && !step.Crash? && !step.UpdateSnapshot? && !step.PublishEvent? && !step.TakeNext?
      && !step.BeginAttempt? && !step.StopRetrying?
  }

  lemma UnseenTies(log: Log, s: E.Engine, w: World, step: E.Step, y: Symbol)
    requires Unseen(step) && s.up && TiedOn(log, s, w, y)
    ensures E.Step1(log, s, step).up && TiedOn(log, E.Step1(log, s, step), w, y)
  {
    hide E.Polled, E.Put, E.PutFailed, E.LeftLoop, E.DrainStep, Ties;
  }

  lemma TakeTies(log: Log, s: E.Engine, w: World, y: Symbol)
    requires TiedOn(log, s, w, y)
    ensures E.Taken(s).up == s.up && TiedOn(log, E.Taken(s), w, y)
  {
    hide NewestOf;
  }

  lemma StopTies(log: Log, s: E.Engine, w: World, y: Symbol)
    requires TiedOn(log, s, w, y)
    ensures E.StoppedRetrying(s).up == s.up && TiedOn(log, E.StoppedRetrying(s), w, y)
  {
    hide NewestOf;
  }

  lemma AttemptTies(log: Log, s: E.Engine, w: World, y: Symbol)
    requires TiedOn(log, s, w, y)
    ensures E.AttemptBegun(s).up == s.up && TiedOn(log, E.AttemptBegun(s), w, y)
  {
    hide NewestOf;
  }

  /** A write the engine makes for the first time extends what the world saw by that event; a repeated one
      changes nothing. */
  lemma WriteExtends(log: Log, s: E.Engine, w: World, c: Consumed)
    requires E.OneHome(log) && Counted(log) && E.Inv(log, s) && s.up && s.task.Busy? && s.task.item == c
    requires TiedOn(log, s, w, c.event.symbol)
    ensures NewestOf(Updated(w, c.event).fed, c.event.symbol) == Some(c.event)
  {
    var y := c.event.symbol;
    InHandIsFirst(log, s);
    if y in s.snapshots && s.snapshots[y].origin != c.Place() {
      OriginIsLast(log, s, y);
      OriginIsOn(log, s, y);
      hide E.DurableOk, E.FlightOk, E.DoneOk, E.EffectsOk, E.CursorsOk, E.AcksOk, E.CommitsOk, E.AheadOk, E.LedgerOk,
        First;
      InHandIsNext(log, s, c, s.snapshots[y].origin);
    }
    hide E.Inv, E.OneHome;
  }

  lemma UpdateTiesOn(log: Log, s: E.Engine, w: World, answer: E.RedisAnswer, y: Symbol)
    requires E.OneHome(log) && Counted(log) && E.Inv(log, s) && s.up && s.task.Busy? && TiedOn(log, s, w, y)
    requires !s.task.updated && !answer.Refused?
    ensures E.Updated(s, answer).up && TiedOn(log, E.Updated(s, answer), Updated(w, s.task.item.event), y)
  {
    var c := s.task.item;
    if y == c.event.symbol {
      InHandIsFirst(log, s);
      WriteExtends(log, s, w, c);
      hide E.Inv, E.OneHome, Counted, NewestOf;
      OwnWrite(log, s, w, answer);
    } else {
      hide E.Inv, E.OneHome, Counted, TiedOn, E.Updated, Updated;
      OtherTies(log, s, w, answer, y);
    }
  }

  lemma OtherTies(log: Log, s: E.Engine, w: World, answer: E.RedisAnswer, y: Symbol)
    requires s.up && s.task.Busy? && !s.task.updated && !answer.Refused? && TiedOn(log, s, w, y)
    requires y != s.task.item.event.symbol
    ensures E.Updated(s, answer).up && TiedOn(log, E.Updated(s, answer), Updated(w, s.task.item.event), y)
  {
    OtherIsSame(log, s, w, answer, y);
    StillInHand(s, answer);
    hide E.Updated, Updated, NewestOf;
  }

  lemma StillInHand(s: E.Engine, answer: E.RedisAnswer)
    requires s.task.Busy?
    ensures var t := E.Updated(s, answer); !t.task.Waiting? && t.task.item == s.task.item && t.done == s.done
  {
  }

  lemma OwnWrite(log: Log, s: E.Engine, w: World, answer: E.RedisAnswer)
    requires s.up && s.task.Busy? && !s.task.updated && !answer.Refused? && First(log, s, s.task.item)
    requires NewestOf(Updated(w, s.task.item.event).fed, s.task.item.event.symbol) == Some(s.task.item.event)
    ensures TiedOn(log, E.Updated(s, answer), Updated(w, s.task.item.event), s.task.item.event.symbol)
  {
    hide Updated, NewestOf;
  }

  lemma OtherIsSame(log: Log, s: E.Engine, w: World, answer: E.RedisAnswer, y: Symbol)
    requires s.task.Busy? && y != s.task.item.event.symbol
    ensures var t, u := E.Updated(s, answer), Updated(w, s.task.item.event);
      && (y in t.snapshots <==> y in s.snapshots) && (y in s.snapshots ==> t.snapshots[y] == s.snapshots[y])
      && NewestOf(u.fed, y) == NewestOf(w.fed, y) && (y in u.fed <==> y in w.fed)
      && (y in u.published <==> y in w.published)
  {
  }

  /** What is published is the event in hand. */
  lemma PublishesInHand(log: Log, s: E.Engine, w: World)
    requires E.Inv(log, s) && Tied(log, s, w) && s.task.Busy? && s.task.updated
    ensures NewestOf(w.fed, s.task.item.event.symbol) == Some(s.task.item.event)
    ensures s.task.item.event.symbol in s.snapshots
    ensures s.snapshots[s.task.item.event.symbol].origin == s.task.item.Place()
  {
    InHandIsFirst(log, s);
    assert E.EffectsOk(log, s.done, s.published, s.snapshots, s.task);
    hide E.Inv;
    assert TiedOn(log, s, w, s.task.item.event.symbol);
  }

  lemma PublishTiesOn(log: Log, s: E.Engine, w: World, answer: E.RedisAnswer, y: Symbol)
    requires E.Inv(log, s) && Tied(log, s, w) && s.task.Busy? && s.task.updated && !answer.Refused?
    ensures E.PublishedStep(s, answer).up
    ensures TiedOn(log, E.PublishedStep(s, answer), PublishedCurrent(w, s.task.item.event.symbol), y)
  {
    var c := s.task.item;
    PublishesInHand(log, s, w);
    InHandIsFirst(log, s);
    assert TiedOn(log, s, w, y);
    if y in s.snapshots {
      assert E.Backed(log, y, s.snapshots[y]) by { hide E.ProcessOk; }
    }
    hide E.Inv;
  }

  /** A call that did nothing, or was not made. */
  lemma NothingSeen(log: Log, s: E.Engine, w: World, answer: E.RedisAnswer, y: Symbol)
    requires s.up && TiedOn(log, s, w, y)
    ensures Seen(s, E.UpdateSnapshot(answer)).None? ==>
      E.Updated(s, answer).up && TiedOn(log, E.Updated(s, answer), w, y)
    ensures Seen(s, E.PublishEvent(answer)).None? ==>
      E.PublishedStep(s, answer).up && TiedOn(log, E.PublishedStep(s, answer), w, y)
  {
    hide NewestOf;
  }

  lemma EngineTies(log: Log, x: System, step: E.Step)
    requires E.OneHome(log) && Counted(log) && E.Inv(log, x.engine) && Tied(log, x.engine, x.world)
    ensures Tied(log, Act1(log, x, EngineDoes(step)).engine, Act1(log, x, EngineDoes(step)).world)
  {
    var s, w, after := x.engine, x.world, Act1(log, x, EngineDoes(step));
    hide E.Inv, TiedOn, Counted, E.OneHome, E.Taken, E.AttemptBegun, E.Updated, E.PublishedStep, E.StoppedRetrying,
      E.Started, E.Polled,
      E.Put, E.PutFailed, E.LeftLoop, E.DrainStep;
    forall y ensures after.engine.up && TiedOn(log, after.engine, after.world, y) {
      assert TiedOn(log, s, w, y);
      match step
      case Start(_) =>
      case Crash =>
      case TakeNext => TakeTies(log, s, w, y);
      case BeginAttempt => AttemptTies(log, s, w, y);
      case StopRetrying => StopTies(log, s, w, y);
      case UpdateSnapshot(answer) =>
        NothingSeen(log, s, w, answer, y);
        if Seen(s, step).Some? {
          UpdateTiesOn(log, s, w, answer, y);
        }
      case PublishEvent(answer) =>
        NothingSeen(log, s, w, answer, y);
        if Seen(s, step).Some? {
          PublishTiesOn(log, s, w, answer, y);
        }
      case _ => UnseenTies(log, s, w, step, y);
    }
    assert TiedOn(log, after.engine, after.world, Symbol(""));
  }

  lemma WorldTies(log: Log, x: System, move: WorldStep)
    requires Tied(log, x.engine, x.world)
    ensures Tied(log, Act1(log, x, WorldDoes(move)).engine, Act1(log, x, WorldDoes(move)).world)
  {
    var after := Act1(log, x, WorldDoes(move));
    WorldWritesNothing(log, x, move);
    forall y ensures TiedOn(log, after.engine, after.world, y) {
      assert TiedOn(log, x.engine, x.world, y);
    }
  }

  // ---- what is written comes from the log ----

  /** `e` is the record at `p`, as stamped when it was polled. */
  ghost predicate IsRecord(log: Log, e: MarketEvent, p: Position) {
    ValidAt(log, p) && e == EventAt(log, p).(serverTs := e.serverTs)
  }

  ghost predicate FromLog(log: Log, e: MarketEvent) {
    exists p :: IsRecord(log, e, p)
  }

  /** No record of the symbol that the process reads comes before `e`. */
  ghost predicate FirstRead(log: Log, runStart: map<TopicPartition, nat>, e: MarketEvent) {
    exists p :: IsRecord(log, e, p) && p.tp in runStart && runStart[p.tp] <= p.offset && NoneBefore(log, runStart, p)
  }

  ghost predicate NoneBefore(log: Log, runStart: map<TopicPartition, nat>, p: Position)
    requires ValidAt(log, p) && p.tp in runStart
  {
    forall q {:trigger ValidAt(log, q)} | ValidAt(log, q) && q.tp == p.tp && runStart[p.tp] <= q.offset < p.offset ::
      EventAt(log, q).symbol != EventAt(log, p).symbol
  }

  ghost predicate WrittenOk(log: Log, runStart: map<TopicPartition, nat>, fed: map<Symbol, seq<MarketEvent>>) {
    forall y {:trigger y in fed} | y in fed ::
      fed[y] != [] && FirstRead(log, runStart, fed[y][0]) && forall i | 0 <= i < |fed[y]| :: FromLog(log, fed[y][i])
  }

  /** The record in hand is the first of its symbol, as long as none is written. */
  lemma InHandIsFirstRead(log: Log, s: E.Engine, c: Consumed)
    requires First(log, s, c) && E.PolledOk(log, s.runStart, s.position, s.open, s.done)
    requires E.EffectsOk(log, s.done, s.published, s.snapshots, s.task) && c.event.symbol !in s.snapshots
    ensures FirstRead(log, s.runStart, c.event)
  {
    var p := c.Place();
    forall q | ValidAt(log, q) && q.tp == p.tp && s.runStart[p.tp] <= q.offset < p.offset
      ensures EventAt(log, q).symbol != EventAt(log, p).symbol
    {
      assert q in s.open || q in s.done;
      assert q in s.done ==> E.Effected(log, q, s.published, s.snapshots);
    }
    assert IsRecord(log, c.event, p) && NoneBefore(log, s.runStart, p);
  }

  lemma AppendKeepsWritten(log: Log, runStart: map<TopicPartition, nat>, w: World, e: MarketEvent)
    requires WrittenOk(log, runStart, w.fed) && FromLog(log, e)
    requires e.symbol !in w.fed ==> FirstRead(log, runStart, e)
    ensures WrittenOk(log, runStart, Updated(w, e).fed)
  {
    hide FromLog, FirstRead;
  }

  lemma WriteIsFromLog(log: Log, s: E.Engine, w: World)
    requires E.Inv(log, s) && s.up && s.task.Busy? && TiedOn(log, s, w, s.task.item.event.symbol)
    requires WrittenOk(log, s.runStart, w.fed)
    ensures WrittenOk(log, s.runStart, Updated(w, s.task.item.event).fed)
  {
    var c := s.task.item;
    InHandIsFirst(log, s);
    assert FromLog(log, c.event) by { assert IsRecord(log, c.event, c.Place()); }
    if c.event.symbol !in s.snapshots {
      InHandIsFirstRead(log, s, c);
    }
    hide E.Inv, First, FromLog, FirstRead;
    AppendKeepsWritten(log, s.runStart, w, c.event);
  }

  lemma RunStartStays(log: Log, s: E.Engine, step: E.Step)
    requires !step.Start? && !step.Crash?
    ensures E.Step1(log, s, step).runStart == s.runStart
  {
    hide E.Polled, E.Put, E.PutFailed, E.LeftLoop, E.DrainStep, E.Taken, E.AttemptBegun, E.Updated, E.PublishedStep,
      E.StoppedRetrying;
  }

  lemma EngineWrites(log: Log, x: System, step: E.Step)
    requires E.Inv(log, x.engine) && Tied(log, x.engine, x.world) && WrittenOk(log, x.engine.runStart, x.world.fed)
    requires !step.Start? && !step.Crash?
    ensures WrittenOk(log, x.engine.runStart, Act1(log, x, EngineDoes(step)).world.fed)
  {
    if step.UpdateSnapshot? && Seen(x.engine, step).Some? {
      assert TiedOn(log, x.engine, x.world, x.engine.task.item.event.symbol);
      hide E.Inv, WrittenOk, TiedOn;
      WriteIsFromLog(log, x.engine, x.world);
    }
    hide E.Inv, WrittenOk, Updated, E.Step1, Tied;
  }

  lemma ActWrites(log: Log, x: System, act: Act)
    requires E.Inv(log, x.engine) && Tied(log, x.engine, x.world) && WrittenOk(log, x.engine.runStart, x.world.fed)
    ensures WrittenOk(log, Act1(log, x, act).engine.runStart, Act1(log, x, act).world.fed)
  {
    hide E.Inv, WrittenOk, WorldStep1, E.Step1, Tied, Seen;
    match act
    case EngineDoes(step) =>
      if !step.Start? && !step.Crash? {
        RunStartStays(log, x.engine, step);
        EngineWrites(log, x, step);
      }
    case WorldDoes(move) => WorldWritesNothing(log, x, move);
  }

  lemma WorldWritesNothing(log: Log, x: System, move: WorldStep)
    ensures Act1(log, x, WorldDoes(move)).engine == x.engine
    ensures Act1(log, x, WorldDoes(move)).world.fed == x.world.fed
    ensures Act1(log, x, WorldDoes(move)).world.published == x.world.published
  {
    hide Streams.Step1, Streams.Delivered;
  }

  // ---- over every run ----

  ghost predicate Composed(log: Log, mode: Mode, policy: Policy, x: System) {
    && E.Inv(log, x.engine) && Tied(log, x.engine, x.world) && GapHealing.Reachable(mode, policy, x.world)
    && WrittenOk(log, x.engine.runStart, x.world.fed)
  }

  lemma WorldReaches(mode: Mode, policy: Policy, w: World, step: WorldStep)
    requires GapHealing.Reachable(mode, policy, w)
    ensures GapHealing.Reachable(mode, policy, WorldStep1(w, step))
  {
    hide WorldStep1;
    var steps :| w == WorldRun(Launched(mode, policy), steps);
    assert (steps + [step])[..|steps + [step]| - 1] == steps;
    assert WorldStep1(w, step) == WorldRun(Launched(mode, policy), steps + [step]);
  }

  lemma BegunComposed(log: Log, base: map<TopicPartition, nat>, fallback: map<TopicPartition, nat>, mode: Mode,
                      policy: Policy)
    requires E.OneHome(log) && E.Fits(log, base)
    ensures Composed(log, mode, policy, Begun(log, base, fallback, mode, policy))
  {
    hide E.Inv, E.OneHome, E.Fits, E.StartPosition;
    var x := Begun(log, base, fallback, mode, policy);
    assert E.Run(log, E.Deployed(base), []) == E.Deployed(base);
    E.RunKeeps(log, base, []);
    E.StartKeeps(log, E.Deployed(base), fallback);
    assert WorldRun(Launched(mode, policy), []) == x.world;
  }

  lemma ActKeeps(log: Log, mode: Mode, policy: Policy, x: System, act: Act)
    requires E.OneHome(log) && Counted(log) && Composed(log, mode, policy, x)
    ensures Composed(log, mode, policy, Act1(log, x, act))
  {
    ActWrites(log, x, act);
    hide E.Inv, Tied, GapHealing.Reachable, WorldStep1, E.Step1, E.OneHome, Counted, WrittenOk;
    match act
    case EngineDoes(step) =>
      EngineTies(log, x, step);
      E.StepKeeps(log, x.engine, step);
      if Seen(x.engine, step).Some? {
        WorldReaches(mode, policy, x.world, Seen(x.engine, step).value);
      }
    case WorldDoes(move) =>
      WorldTies(log, x, move);
      WorldReaches(mode, policy, x.world, move);
  }

  /** Every run of the two together is a run of the engine machine and one of the hand-off's world, whose
      Redis is the engine's. */
  lemma {:induction false} RunKeeps(log: Log, base: map<TopicPartition, nat>, fallback: map<TopicPartition, nat>,
                                    mode: Mode, policy: Policy, acts: seq<Act>)
    requires E.OneHome(log) && Counted(log) && E.Fits(log, base)
    ensures Composed(log, mode, policy, Run(log, Begun(log, base, fallback, mode, policy), acts))
  {
    hide Composed;
    if acts == [] {
      BegunComposed(log, base, fallback, mode, policy);
    } else {
      RunKeeps(log, base, fallback, mode, policy, acts[..|acts| - 1]);
      ActKeeps(log, mode, policy, Run(log, Begun(log, base, fallback, mode, policy), acts[..|acts| - 1]),
        acts[|acts| - 1]);
    }
  }

  ghost predicate Reached(log: Log, base: map<TopicPartition, nat>, mode: Mode, policy: Policy, x: System) {
    exists fallback, acts :: x == Run(log, Begun(log, base, fallback, mode, policy), acts)
  }

  lemma ReachedComposed(log: Log, base: map<TopicPartition, nat>, mode: Mode, policy: Policy, x: System)
    requires E.OneHome(log) && Counted(log) && E.Fits(log, base) && Reached(log, base, mode, policy, x)
    ensures Composed(log, mode, policy, x)
  {
    hide Composed, Begun, Run, Counted, E.OneHome, E.Fits;
    var fallback, acts :| x == Run(log, Begun(log, base, fallback, mode, policy), acts);
    RunKeeps(log, base, fallback, mode, policy, acts);
  }

  lemma TiedSnapshot(log: Log, s: E.Engine, w: World, y: Symbol)
    requires TiedOn(log, s, w, y)
    ensures SnapshotNow(w, y) == (if y in s.snapshots then Some(s.snapshots[y].data) else None)
    ensures y in s.snapshots && s.task.Waiting? ==> y in w.published && History(w, y) != []
  {
  }

  /** What a client reads is what the engine stored, and what the world publishes is the event the engine has
      in hand. */
  lemma ReadsWhatTheEngineStored(log: Log, base: map<TopicPartition, nat>, mode: Mode, policy: Policy, x: System,
                                 y: Symbol)
    requires E.OneHome(log) && Counted(log) && E.Fits(log, base) && Reached(log, base, mode, policy, x)
    ensures SnapshotNow(x.world, y) == (if y in x.engine.snapshots then Some(x.engine.snapshots[y].data) else None)
    ensures x.engine.task.Busy? && x.engine.task.updated && x.engine.task.item.event.symbol == y ==>
      NewestOf(x.world.fed, y) == Some(x.engine.task.item.event)
  {
    ReachedComposed(log, base, mode, policy, x);
    assert Tied(log, x.engine, x.world) && E.Inv(log, x.engine);
    assert TiedOn(log, x.engine, x.world, y);
    hide E.Inv, GapHealing.Reachable, TiedOn, SnapshotNow, NewestOf;
    TiedSnapshot(log, x.engine, x.world, y);
    if x.engine.task.Busy? && x.engine.task.updated && x.engine.task.item.event.symbol == y {
      PublishesInHand(log, x.engine, x.world);
    }
  }

  /** Nothing of `y` is on its way: the engine rests, the channel and the aggregator hold nothing of it. */
  predicate Settled(x: System, y: Symbol) {
    && x.engine.task.Waiting? && y in x.engine.snapshots && y in x.world.stream.subscriptions
    && OnSymbol(x.world.channel, y) == [] && OnSymbol(x.world.stream.aggregator.output, y) == []
  }

  /** `m` carries a record of the log, apart from the stamp it got when it was polled. */
  ghost predicate IsLogMessage(log: Log, m: Message) {
    match m
    case Snapshot(d) => exists e :: FromLog(log, e) && d == SnapshotOf(e)
    case Incremental(e) => FromLog(log, e)
    case Notice(_) => false
  }

  lemma FedIsFromLog(log: Log, runStart: map<TopicPartition, nat>, fed: map<Symbol, seq<MarketEvent>>, m: Message)
    requires WrittenOk(log, runStart, fed) && GapHealing.IsFedMessage(fed, m) && m.IsData()
    ensures IsLogMessage(log, m)
  {
    match m
    case Snapshot(d) =>
      var e := GapHealing.FedAt(fed, d.symbol, d.seqNo);
      assert FromLog(log, e) && d == SnapshotOf(e);
    case Incremental(e) =>
  }

  lemma ToldIsFromLog(log: Log, runStart: map<TopicPartition, nat>, w: World, y: Symbol)
    requires GapHealing.Reachable(Raw, DropOldestPolicy, w) && y !in w.disturbed && !w.stream.overflowed
    requires WrittenOk(log, runStart, w.fed)
    ensures var told := Gapless.DataOn(w.stream.hist, y);
      && (forall i | 0 <= i < |told| :: IsLogMessage(log, told[i]))
      && (told != [] && told[0].Incremental? ==> FirstRead(log, runStart, told[0].event))
  {
    hide IsLogMessage, GapHealing.Reachable, GapHealing.IsFedMessage, Gapless.DataOn, FirstRead, FromLog;
    Gapless.GaplessHandOff(w, y);
    var told := Gapless.DataOn(w.stream.hist, y);
    forall i | 0 <= i < |told| ensures IsLogMessage(log, told[i]) {
      FedIsFromLog(log, runStart, w.fed, told[i]);
    }
  }

  lemma ToldByTheEngine(log: Log, x: System, y: Symbol)
    requires Composed(log, Raw, DropOldestPolicy, x) && y !in x.world.disturbed && !x.world.stream.overflowed
    ensures var told := Gapless.DataOn(x.world.stream.hist, y);
      && (forall i | 0 <= i < |told| :: told[i].IsData() && told[i].SymbolOf() == y && IsLogMessage(log, told[i]))
      && (forall i | 0 < i < |told| :: told[i].Incremental? && told[i].SeqOf() == told[0].SeqOf() + i)
      && (told != [] && told[0].Incremental? ==> FirstRead(log, x.engine.runStart, told[0].event))
      && Streams.Lookup(x.world.stream.lastSeq, y) == (if told == [] then None else Some(told[|told| - 1].SeqOf()))
    ensures !Gapless.Awaits(x.world.stream.dispatch, y)
  {
    hide GapHealing.Reachable, WrittenOk, IsLogMessage, FirstRead, E.Inv, Tied;
    hide Gapless.DataOn, GapHealing.IsFedMessage, Gapless.Awaits;
    ToldIsFromLog(log, x.engine.runStart, x.world, y);
    Gapless.GaplessHandOff(x.world, y);
  }

  /** The hand-off, behind the real engine: a first unfiltered RAW subscription is told one snapshot, or the first
      record of its symbol that the process reads, and then exactly the following numbers, one by one, each with
      the log's own content, ending at the baseline; and the dispatch loop never awaits a gap's snapshot. */
  lemma GaplessBehindTheEngine(log: Log, base: map<TopicPartition, nat>, x: System, y: Symbol)
    requires E.OneHome(log) && Counted(log) && E.Fits(log, base) && Reached(log, base, Raw, DropOldestPolicy, x)
    requires y !in x.world.disturbed && !x.world.stream.overflowed
    ensures var told := Gapless.DataOn(x.world.stream.hist, y);
      && (forall i | 0 <= i < |told| :: told[i].IsData() && told[i].SymbolOf() == y && IsLogMessage(log, told[i]))
      && (forall i | 0 < i < |told| :: told[i].Incremental? && told[i].SeqOf() == told[0].SeqOf() + i)
      && (told != [] && told[0].Incremental? ==> FirstRead(log, x.engine.runStart, told[0].event))
      && Streams.Lookup(x.world.stream.lastSeq, y) == (if told == [] then None else Some(told[|told| - 1].SeqOf()))
    ensures !Gapless.Awaits(x.world.stream.dispatch, y)
  {
    hide Reached, Composed, Counted, E.OneHome, E.Fits, IsLogMessage, FirstRead, Gapless.DataOn, Gapless.Awaits;
    ReachedComposed(log, base, Raw, DropOldestPolicy, x);
    ToldByTheEngine(log, x, y);
  }

  lemma SettledIsTold(log: Log, x: System, y: Symbol)
    requires Composed(log, Raw, DropOldestPolicy, x) && y !in x.world.disturbed && !x.world.stream.overflowed
    requires Settled(x, y)
    ensures var told := Gapless.DataOn(x.world.stream.hist, y);
      told != [] && told[|told| - 1].IsData() && told[|told| - 1].SeqOf() == x.engine.snapshots[y].data.seqNo
  {
    assert GapHealing.Reachable(Raw, DropOldestPolicy, x.world);
    assert TiedOn(log, x.engine, x.world, y);
    hide Composed, GapHealing.Reachable, Gapless.DataOn, TiedOn, OnSymbol;
    TiedSnapshot(log, x.engine, x.world, y);
    Gapless.HandOffIsComplete(x.world, y);
  }

  /** And once nothing is on its way, the client was told what the engine stored last. */
  lemma ToldWhatTheEngineStored(log: Log, base: map<TopicPartition, nat>, x: System, y: Symbol)
    requires E.OneHome(log) && Counted(log) && E.Fits(log, base) && Reached(log, base, Raw, DropOldestPolicy, x)
    requires y !in x.world.disturbed && !x.world.stream.overflowed && Settled(x, y)
    ensures var told := Gapless.DataOn(x.world.stream.hist, y);
      told != [] && told[|told| - 1].IsData() && told[|told| - 1].SeqOf() == x.engine.snapshots[y].data.seqNo
  {
    hide Reached, Composed, Counted, E.OneHome, E.Fits, Settled, Gapless.DataOn;
    ReachedComposed(log, base, Raw, DropOldestPolicy, x);
    SettledIsTold(log, x, y);
  }
}
