/** The asyncio side of the engine: one event is written to Redis, published and acknowledged, with as
    many retries as it takes until shutdown. The code is proved to be an execution of the run model. */
module DistributionEngines {
  import opened Events
  import opened Acknowledgements
  import opened EngineRuns

  class RedisStore {
    var snapshots: map<Symbol, SnapshotData>
    var published: seq<MarketEvent>

    constructor ()
      ensures snapshots == map[] && published == []
    {
      snapshots, published := map[], [];
    }

    method Update(e: MarketEvent, answer: RedisAnswer) returns (ok: bool)
      modifies this`snapshots
      ensures ok == answer.Done?
      ensures snapshots == if answer.Refused? then old(snapshots) else old(snapshots)[e.symbol := SnapshotOf(e)]
    {
      if !answer.Refused? {
        snapshots := snapshots[e.symbol := SnapshotOf(e)];
      }
      ok := answer.Done?;
    }

    method PublishEvent(e: MarketEvent, answer: RedisAnswer) returns (ok: bool)
      modifies this`published
      ensures ok == answer.Done?
      ensures published == if answer.Refused? then old(published) else old(published) + [e]
    {
      if !answer.Refused? {
        published := published + [e];
      }
      ok := answer.Done?;
    }
  }

  /** What one attempt meets: Redis' answers, and whether shutdown is requested while a call is in flight or
      before the next attempt. */
  datatype Attempt = Attempt(early: bool, update: RedisAnswer, midway: bool, publish: RedisAnswer, late: bool)

  /** The snapshots without the record of where they came from. */
  function Plain(snapshots: map<Symbol, Stored>): map<Symbol, SnapshotData> {
    map y | y in snapshots :: snapshots[y].data
  }

  lemma PlainOfWrite(snapshots: map<Symbol, Stored>, y: Symbol, stored: Stored)
    ensures Plain(snapshots[y := stored]) == Plain(snapshots)[y := stored.data]
  {
  }

  /** `after` is `before` followed by some copies of `e`. */
  predicate CopiesAdded(before: seq<MarketEvent>, after: seq<MarketEvent>, e: MarketEvent) {
    before <= after && forall i | |before| <= i < |after| :: after[i] == e
  }

  class DistributionEngine {
    const log: Log
    const consumer: KafkaConsumerBridge
    var processed: nat
    var redisRetries: nat
    var shutdown: bool
    ghost var model: Engine

    constructor (log: Log, consumer: KafkaConsumerBridge, model: Engine)
      ensures this.log == log && this.consumer == consumer && this.model == model
      ensures processed == redisRetries == 0 && !shutdown
    {
      this.log, this.consumer := log, consumer;
      processed, redisRetries, shutdown := 0, 0, false;
      this.model := model;
    }

    /** The objects hold what the model's state says. */
    ghost predicate Coupled(store: RedisStore)
      reads this, consumer, store
    {
      && model.up && model.bridge == consumer.View() && model.shutdown == shutdown
      && store.snapshots == Plain(model.snapshots)
    }

    ghost method Advance(step: Step, start: Engine, steps: seq<Step>) returns (more: seq<Step>)
      requires model == Run(log, start, steps)
      modifies this`model
      ensures model == Step1(log, old(model), step) && model == Run(log, start, more)
    {
      more := steps + [step];
      assert more[..|more| - 1] == steps;
      model := Step1(log, model, step);
    }

    method UpdateSnapshotOf(c: Consumed, store: RedisStore, answer: RedisAnswer, ghost start: Engine,
                            ghost before: seq<Step>)
      returns (ok: bool, ghost steps: seq<Step>)
      requires Coupled(store) && model.task == Busy(c, false) && model == Run(log, start, before)
      modifies this`model, store`snapshots
      ensures Coupled(store) && model == Run(log, start, steps) && ok == answer.Done?
      ensures model.task == if ok then Busy(c, true) else Ready(c)
      ensures store.snapshots == if answer.Refused? then old(store.snapshots)
        else old(store.snapshots)[c.event.symbol := SnapshotOf(c.event)]
    {
      hide Run, Plain;
      PlainOfWrite(model.snapshots, c.event.symbol, Stored(SnapshotOf(c.event), c.Place()));
      ok := store.Update(c.event, answer);
      steps := Advance(UpdateSnapshot(answer), start, before);
    }

    method PublishAndAcknowledge(c: Consumed, store: RedisStore, answer: RedisAnswer, ghost start: Engine,
                                 ghost before: seq<Step>)
      returns (ok: bool, ghost steps: seq<Step>)
      requires Coupled(store) && model.task == Busy(c, true) && model == Run(log, start, before)
      modifies this`model, this`processed, consumer, store`published
      ensures Coupled(store) && model == Run(log, start, steps) && ok == answer.Done?
      ensures model.task == if ok then Waiting else Ready(c)
      ensures consumer.View() == if ok then Acknowledge(old(consumer.View()), c) else old(consumer.View())
      ensures processed == old(processed) + if ok then 1 else 0
      ensures store.published == if answer.Refused? then old(store.published) else old(store.published) + [c.event]
    {
      hide Run, Plain;
      ok := store.PublishEvent(c.event, answer);
      steps := Advance(PublishEvent(answer), start, before);
      if ok {
        processed := processed + 1;
        consumer.AcknowledgeConsumed(c);
      }
    }

    /** One pass over both Redis calls; a shutdown requested meanwhile does not stop it. */
    method ProcessEvent(c: Consumed, store: RedisStore, attempt: Attempt, ghost start: Engine, ghost before: seq<Step>)
      returns (ok: bool, ghost steps: seq<Step>)
      requires Coupled(store) && model.task == Busy(c, false) && model == Run(log, start, before)
      modifies this`model, this`processed, this`shutdown, consumer, store
      ensures model == Run(log, start, steps) && ok == (attempt.update.Done? && attempt.publish.Done?)
      ensures Coupled(store) && model.task == if ok then Waiting else Ready(c)
      ensures shutdown == (old(shutdown) || attempt.early || (attempt.update.Done? && attempt.midway))
      ensures consumer.View() == if ok then Acknowledge(old(consumer.View()), c) else old(consumer.View())
      ensures processed == old(processed) + if ok then 1 else 0
      ensures store.snapshots == if attempt.update.Refused? then old(store.snapshots)
                                 else old(store.snapshots)[c.event.symbol := SnapshotOf(c.event)]
      ensures store.published == if attempt.update.Done? && !attempt.publish.Refused? then
        old(store.published) + [c.event]
                                 else old(store.published)
    {
      hide Run, Plain;
      steps := before;
      if attempt.early {
        steps := RequestShutdown(store, start, steps);
      }
      ok, steps := UpdateSnapshotOf(c, store, attempt.update, start, steps);
      if ok {
        if attempt.midway {
          steps := RequestShutdown(store, start, steps);
        }
        ok, steps := PublishAndAcknowledge(c, store, attempt.publish, start, steps);
      }
    }

    /** One turn of the retry loop, with the pause after a failure. */
    method Try(c: Consumed, store: RedisStore, attempt: Attempt, ghost start: Engine, ghost before: seq<Step>)
      returns (ok: bool, ghost steps: seq<Step>)
      requires Coupled(store) && model.task == Ready(c) && !shutdown && model == Run(log, start, before)
      modifies this, consumer, store
      ensures model == Run(log, start, steps) && ok == (attempt.update.Done? && attempt.publish.Done?)
      ensures Coupled(store) && model.task == if ok then Waiting else Ready(c)
      ensures consumer.View() == if ok then Acknowledge(old(consumer.View()), c) else old(consumer.View())
      ensures processed == old(processed) + if ok then 1 else 0
      ensures redisRetries == old(redisRetries) + if ok then 0 else 1
      ensures store.snapshots == if attempt.update.Refused? then old(store.snapshots)
                                 else old(store.snapshots)[c.event.symbol := SnapshotOf(c.event)]
      ensures store.published == if attempt.update.Done? && !attempt.publish.Refused? then
        old(store.published) + [c.event]
                                 else old(store.published)
    {
      hide Run, Plain, Step1;
      steps := Begin(c, store, start, before);
      ok, steps := ProcessEvent(c, store, attempt, start, steps);
      if !ok {
        redisRetries := redisRetries + 1;
        if attempt.late {
          steps := RequestShutdown(store, start, steps);
        }
      }
    }

    /** `None` when the process ends before the outcome is known. An event is acknowledged only after one
        attempt in which both calls succeeded, and at most once; it is given up only between attempts. */
    method ProcessConsumedEvent(c: Consumed, store: RedisStore, attempts: seq<Attempt>)
      returns (acknowledged: Option<bool>, ghost steps: seq<Step>)
      requires Coupled(store) && model.task == Ready(c)
      modifies this, consumer, store
      ensures Coupled(store) && model == Run(log, old(model), steps)
      ensures CopiesAdded(old(store.published), store.published, c.event)
      ensures acknowledged == Some(true) ==>
                && consumer.View() == Acknowledge(old(consumer.View()), c) && model.task == Waiting
                && store.snapshots == old(store.snapshots)[c.event.symbol := SnapshotOf(c.event)]
                && |old(store.published)| < |store.published| && processed == old(processed) + 1
      ensures acknowledged != Some(true) ==> consumer.View() == old(consumer.View()) && processed == old(processed)
      ensures acknowledged == Some(false) ==> shutdown && model.task == GaveUp(c)
      ensures attempts != [] && !old(shutdown) && attempts[0].update.Done? && attempts[0].publish.Done? ==>
        acknowledged == Some(true)
    {
      ghost var start := model;
      steps := [];
      assert model == Run(log, start, steps);
      hide Run, Step1, Plain;
      var i := 0;
      while !shutdown && i < |attempts|
        invariant 0 <= i <= |attempts| && Coupled(store) && model.task == Ready(c)
        invariant model == Run(log, start, steps) && consumer.View() == old(consumer.View())
        invariant CopiesAdded(old(store.published), store.published, c.event) && processed == old(processed)
        invariant store.snapshots == old(store.snapshots) ||
                  store.snapshots == old(store.snapshots)[c.event.symbol := SnapshotOf(c.event)]
        invariant i == 0 ==> shutdown == old(shutdown)
        invariant i > 0 ==> !(attempts[0].update.Done? && attempts[0].publish.Done?)
      {
        var ok;
        ok, steps := Try(c, store, attempts[i], start, steps);
        if ok {
          return Some(true), steps;
        }
        i := i + 1;
      }
      if !shutdown {
        return None, steps;
      }
      steps := GiveUp(c, store, start, steps);
      acknowledged := Some(false);
    }

    method RequestShutdown(store: RedisStore, ghost start: Engine, ghost before: seq<Step>)
      returns (ghost steps: seq<Step>)
      requires Coupled(store) && model == Run(log, start, before)
      modifies this`model, this`shutdown
      ensures Coupled(store) && shutdown && model.task == old(model.task) && model == Run(log, start, steps)
    {
      hide Run, Plain;
      shutdown := true;
      steps := Advance(Shutdown, start, before);
    }

    ghost method Begin(c: Consumed, store: RedisStore, start: Engine, before: seq<Step>) returns (steps: seq<Step>)
      requires Coupled(store) && model.task == Ready(c) && !shutdown && model == Run(log, start, before)
      modifies this`model
      ensures Coupled(store) && model.task == Busy(c, false) && model == Run(log, start, steps)
    {
      hide Run, Plain;
      steps := Advance(BeginAttempt, start, before);
    }

    ghost method GiveUp(c: Consumed, store: RedisStore, start: Engine, before: seq<Step>) returns (steps: seq<Step>)
      requires Coupled(store) && model.task == Ready(c) && shutdown && model == Run(log, start, before)
      modifies this`model
      ensures Coupled(store) && model.task == GaveUp(c) && model == Run(log, start, steps)
    {
      hide Run, Plain;
      steps := Advance(StopRetrying, start, before);
    }
  }
}
