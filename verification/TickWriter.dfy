/** The tick writer's code. Every method is proved to be an execution of the run model, so what holds of
    all runs holds of the code. The environment's answers are arbitrary; a budget of interactions that
    runs out stands for the process dying there. */
module TickWriters {
  import opened Events
  import opened TickWriterRuns

  class HistoryStore {
    var rows: set<RowKey>

    constructor ()
      ensures rows == {}
    {
      rows := {};
    }

    /** One statement with `ON CONFLICT DO NOTHING`: all or nothing, counting the rows it added. */
    method InsertTicks(batch: seq<Consumed>, answer: InsertAnswer) returns (added: Option<nat>)
      modifies this
      ensures rows == if answer.Refused? then old(rows) else old(rows) + KeysOf(batch)
      ensures added == if answer.Inserted? then Some(|KeysOf(batch) - old(rows)|) else None
    {
      added := if answer.Inserted? then Some(|KeysOf(batch) - rows|) else None;
      if !answer.Refused? {
        rows := rows + KeysOf(batch);
      }
    }
  }

  class KafkaConsumer {
    const log: Log
    var position: map<TopicPartition, nat>
    var committed: map<TopicPartition, nat>

    constructor (log: Log)
      ensures this.log == log && committed == map[] && position == map tp | tp in log :: 0
    {
      this.log, committed, position := log, map[], map tp | tp in log :: 0;
    }

    /** The next record of `tp`, if there is one. */
    method Poll(tp: TopicPartition) returns (message: Option<(Record, nat)>)
      modifies this`position
      ensures message.Some? <==> tp in log && tp in old(position) && old(position)[tp] < |log[tp]|
      ensures message.Some? ==>
                && message.value == (log[tp][old(position)[tp]], old(position)[tp])
                && position == old(position)[tp := old(position)[tp] + 1]
      ensures message.None? ==> position == old(position)
    {
      if tp in log && tp in position && position[tp] < |log[tp]| {
        message := Some((log[tp][position[tp]], position[tp]));
        position := position[tp := position[tp] + 1];
      } else {
        message := None;
      }
    }

    method Commit(p: Position, answer: CommitAnswer) returns (ok: bool)
      modifies this`committed
      ensures ok == answer.Done?
      ensures committed == if answer.Done? || answer.landed then CommitPlace(old(committed), p) else old(committed)
    {
      ok := answer.Done?;
      if answer.Done? || answer.landed {
        committed := CommitPlace(committed, p);
      }
    }
  }

  function AfterBatch(next: Then): Phase {
    if next.Resume? then Polling else CommittingInvalid(next.place)
  }

  datatype FlushResult = Flushed | StopRequested | Died

  class TickWriter {
    const cfg: Config
    const log: Log
    const store: HistoryStore
    const consumer: KafkaConsumer
    var insertedTicks: nat
    var stop: bool
    var clock: int
    ghost var model: Writer

    /** The objects and the loop's local batch hold what the model's state says. */
    ghost predicate Coupled(batch: seq<Consumed>)
      reads this, store, consumer
    {
      && model.committed == consumer.committed && model.rows == store.rows && model.position == consumer.position
      && model.batch == batch && model.now == clock && model.stop == stop && model.inserted == insertedTicks
    }

    /** A new process on existing storage. */
    constructor (cfg: Config, log: Log, store: HistoryStore, consumer: KafkaConsumer, now: int, ghost before: Writer)
      requires before.phase.Down? && before.committed == consumer.committed && before.rows == store.rows
      modifies consumer`position
      ensures this.cfg == cfg && this.log == log && this.store == store && this.consumer == consumer
      ensures model == Step1(cfg, log, before, Start(now)) && Coupled([])
    {
      this.cfg, this.log, this.store, this.consumer := cfg, log, store, consumer;
      insertedTicks, stop, clock := 0, false, now;
      model := Started(log, before, now);
      new;
      consumer.position := map tp | tp in log :: CommittedAt(consumer.committed, tp);
    }

    ghost method Advance(step: Step, start: Writer, steps: seq<Step>) returns (more: seq<Step>)
      requires model == Run(cfg, log, start, steps)
      modifies this`model
      ensures model == Step1(cfg, log, old(model), step) && model == Run(cfg, log, start, more)
    {
      more := steps + [step];
      assert more[..|more| - 1] == steps;
      model := Step1(cfg, log, model, step);
    }

    /** The last consumed record of each partition, in order of first appearance. */
    static method LastByPartition(batch: seq<Consumed>) returns (list: seq<Position>)
      ensures list == CommitList(batch)
    {
      list := [];
      for i := 0 to |batch|
        invariant list == CommitList(batch[..i])
      {
        assert batch[..i + 1][..i] == batch[..i];
        list := Upsert(list, batch[i].Place());
      }
      assert batch[..|batch|] == batch;
    }

    /** Commits the batch partition by partition; a commit that raises ends the process. */
    method CommitBatch(batch: seq<Consumed>, ghost start: Writer, ghost before: seq<Step>)
      returns (alive: bool, ghost steps: seq<Step>)
      requires Coupled(batch) && batch != [] && model == Run(cfg, log, start, before)
      requires model.phase.Committing? && model.phase.todo == CommitList(batch)
      modifies this`model, consumer`committed
      ensures model == Run(cfg, log, start, steps)
      ensures alive ==> Coupled([]) && model.phase == AfterBatch(old(model.phase).then_)
      ensures !alive ==> model.phase == Down
      ensures !alive ==> model.committed == consumer.committed
      ensures !alive ==> model.rows == store.rows
    {
      hide Run, Step1, CommitList;
      ghost var next := model.phase.then_;
      var todo := LastByPartition(batch);
      CommitListIsGreatest(batch, batch[0].tp);
      steps := before;
      while |todo| > 1
        invariant todo != [] && Coupled(batch) && model.phase == Committing(todo, next)
          && model == Run(cfg, log, start, steps)
      {
        alive, steps := CommitOne(batch, todo, start, steps);
        if !alive {
          return;
        }
        todo := todo[1..];
      }
      alive, steps := CommitOne(batch, todo, start, steps);
    }

    method CommitOne(batch: seq<Consumed>, todo: seq<Position>, ghost start: Writer, ghost before: seq<Step>)
      returns (alive: bool, ghost steps: seq<Step>)
      requires Coupled(batch) && todo != [] && model.phase.Committing? && model.phase.todo == todo
        && model == Run(cfg, log, start, before)
      modifies this`model, consumer`committed
      ensures model == Run(cfg, log, start, steps)
      ensures alive && |todo| > 1 ==> Coupled(batch) && model.phase == Committing(todo[1..], old(model.phase).then_)
      ensures alive && |todo| == 1 ==> Coupled([]) && model.phase == AfterBatch(old(model.phase).then_)
      ensures !alive ==> model.phase == Down
      ensures !alive ==> model.committed == consumer.committed
      ensures !alive ==> model.rows == store.rows
    {
      hide Run;
      var answer: CommitAnswer := *;
      alive := consumer.Commit(todo[0], answer);
      steps := Advance(CommitNext(answer), start, before);
    }

    /** Writes the batch until the store confirms it, then commits it. Nothing is committed for a batch
        whose insert was not confirmed, and a stop request ends the retries. */
    method Flush(batch: seq<Consumed>, budget: nat, ghost start: Writer, ghost before: seq<Step>)
      returns (result: FlushResult, ghost steps: seq<Step>)
      requires Coupled(batch) && batch != [] && model.phase.Flushing? && model == Run(cfg, log, start, before)
      modifies this, store, consumer
      ensures model == Run(cfg, log, start, steps)
      ensures result.Flushed? ==>
        Coupled([]) && model.phase == AfterBatch(old(model.phase).then_) && KeysOf(batch) <= store.rows
      ensures result.StopRequested? ==>
        Coupled([]) && stop && model.phase.Stopped? && consumer.committed == old(consumer.committed)
      ensures result.Died? ==> model.phase == Down && model.committed == consumer.committed && model.rows == store.rows
    {
      hide Run, Step1, CommitList, KeysOf;
      steps := before;
      var tries := 0;
      while !stop && tries < budget
        invariant Coupled(batch) && model.phase == old(model.phase) && model == Run(cfg, log, start, steps)
        invariant consumer.committed == old(consumer.committed)
      {
        tries := tries + 1;
        var inserted;
        inserted, steps := TryInsert(batch, start, steps);
        if inserted {
          var alive;
          alive, steps := CommitBatch(batch, start, steps);
          return if alive then Flushed else Died, steps;
        }
        steps := MaybeStop(batch, start, steps);
      }
      if stop {
        steps := Discard(batch, start, steps);
        return StopRequested, steps;
      }
      steps := Die(batch, start, steps);
      result := Died;
    }

    method TryInsert(batch: seq<Consumed>, ghost start: Writer, ghost before: seq<Step>)
      returns (ok: bool, ghost steps: seq<Step>)
      requires Coupled(batch) && !stop && model.phase.Flushing? && model == Run(cfg, log, start, before)
      modifies this`model, this`insertedTicks, this`clock, store
      ensures Coupled(batch) && model == Run(cfg, log, start, steps)
      ensures ok ==> model.phase == Committing(CommitList(batch), old(model.phase).then_) && KeysOf(batch) <= store.rows
      ensures !ok ==> model.phase == old(model.phase)
    {
      hide Run, CommitList, KeysOf;
      var answer: InsertAnswer, pause: nat := *, *;
      var added := store.InsertTicks(batch, answer);
      ok := added.Some?;
      if ok {
        insertedTicks := insertedTicks + added.value;
      } else {
        clock := clock + pause;
      }
      steps := Advance(Insert(answer, pause), start, before);
    }

    /** A stop request may arrive at any suspension. */
    method MaybeStop(batch: seq<Consumed>, ghost start: Writer, ghost before: seq<Step>)
      returns (ghost steps: seq<Step>)
      requires Coupled(batch) && model == Run(cfg, log, start, before)
      modifies this`model, this`stop
      ensures Coupled(batch) && model == Run(cfg, log, start, steps)
      ensures model.phase == old(model.phase) && model.batchStarted == old(model.batchStarted)
    {
      hide Run;
      steps := before;
      var requested: bool := *;
      if requested {
        stop := true;
        steps := Advance(RequestStop, start, before);
      }
    }

    ghost method Discard(batch: seq<Consumed>, start: Writer, before: seq<Step>) returns (steps: seq<Step>)
      requires Coupled(batch) && stop && (model.phase.Flushing? || model.phase.Polling?)
        && model == Run(cfg, log, start, before)
      modifies this`model
      ensures Coupled([]) && model.phase.Stopped? && model == Run(cfg, log, start, steps)
    {
      hide Run;
      steps := Advance(if model.phase.Polling? then ExitLoop else Insert(Refused, 0), start, before);
    }

    ghost method Die(batch: seq<Consumed>, start: Writer, before: seq<Step>) returns (steps: seq<Step>)
      requires Coupled(batch) && model == Run(cfg, log, start, before)
      modifies this`model
      ensures model.phase == Down && model.committed == consumer.committed && model.rows == store.rows
        && model == Run(cfg, log, start, steps)
    {
      hide Run;
      steps := Advance(Crash, start, before);
    }

    /** The malformed record is committed only after every earlier valid record in memory was flushed. */
    method HandleInvalidMessage(batch: seq<Consumed>, place: Position, budget: nat, ghost start: Writer,
                                ghost before: seq<Step>)
      returns (result: FlushResult, ghost steps: seq<Step>)
      requires Coupled(batch) && model == Run(cfg, log, start, before)
      requires model.phase == if batch != [] then Flushing(SkipInvalid(place)) else CommittingInvalid(place)
      modifies this, store, consumer
      ensures model == Run(cfg, log, start, steps)
      ensures result.Flushed? ==> Coupled([]) && model.phase.Polling? && (batch != [] ==> KeysOf(batch) <= store.rows)
      ensures result.StopRequested? ==>
        Coupled([]) && stop && model.phase.Stopped? && consumer.committed == old(consumer.committed)
      ensures result.Died? ==> model.phase == Down && model.committed == consumer.committed && model.rows == store.rows
    {
      hide Run, KeysOf;
      steps := before;
      if batch != [] {
        result, steps := Flush(batch, budget, start, steps);
        if !result.Flushed? {
          return;
        }
      }
      var answer: CommitAnswer := *;
      var alive := consumer.Commit(place, answer);
      steps := Advance(CommitNext(answer), start, steps);
      result := if alive then Flushed else Died;
    }

    /** The main loop. Its states, whatever the environment answers and wherever the process dies, are
        states of a run of the model, so every guarantee about runs is one about this loop. */
    method RunLoop(budget: nat, ghost start: Writer, ghost before: seq<Step>) returns (ghost steps: seq<Step>)
      requires Coupled([]) && model.phase.Polling? && model == Run(cfg, log, start, before) && consumer.log == log
      modifies this, store, consumer
      ensures model == Run(cfg, log, start, steps) && (model.phase.Stopped? || model.phase.Down?)
      ensures model.committed == consumer.committed && model.rows == store.rows
    {
      hide Run, Step1;
      steps := before;
      var batch: seq<Consumed>, batchStarted := [], clock;
      var polls := 0;
      while !stop && polls < budget
        invariant Coupled(batch) && model.phase.Polling? && model == Run(cfg, log, start, steps)
        invariant batch != [] ==> model.batchStarted == batchStarted
      {
        polls := polls + 1;
        var alive;
        alive, batch, batchStarted, steps := Turn(batch, batchStarted, budget, start, steps);
        if !alive {
          return;
        }
      }
      if stop {
        steps := Discard(batch, start, steps);
      } else {
        steps := Die(batch, start, steps);
      }
    }

    /** Takes the next record of `tp` and appends it to the batch if it is valid. */
    method TakeMessage(tp: TopicPartition, elapsed: nat, batch: seq<Consumed>, batchStarted: int, ghost start: Writer,
                       ghost before: seq<Step>)
      returns (batch': seq<Consumed>, batchStarted': int, invalid: Option<Position>, flushNow: bool,
        ghost steps: seq<Step>)
      requires elapsed <= PollTimeout(cfg, |batch|, clock - batchStarted)
      requires Coupled(batch) && model.phase.Polling? && model == Run(cfg, log, start, before) && consumer.log == log
      requires batch != [] ==> model.batchStarted == batchStarted
      modifies this`model, this`clock, consumer`position
      ensures Coupled(batch') && (batch' != [] ==> model.batchStarted == batchStarted')
        && model == Run(cfg, log, start, steps)
      ensures invalid.Some? ==> model.phase == if batch' != [] then Flushing(SkipInvalid(invalid.value))
        else CommittingInvalid(invalid.value)
      ensures invalid.None? ==> model.phase == if flushNow then Flushing(Resume) else Polling
      ensures flushNow ==> invalid.None? && batch' != []
    {
      hide Run, ShouldFlush, PollTimeout;
      batch', batchStarted', invalid, flushNow := batch, batchStarted, None, false;
      assert elapsed <= PollTimeout(cfg, |batch|, Age(model)) by { TimeoutOfEmpty(clock - batchStarted, Age(model)); }
      clock := clock + elapsed;
      var message := consumer.Poll(tp);
      if message.Some? {
        var (record, offset) := message.value;
        if record.Malformed? {
          invalid := Some(Position(tp, offset));
        } else {
          if batch == [] {
            batchStarted' := clock;
          }
          batch' := batch + [Consumed(record.event, tp, offset)];
          flushNow := ShouldFlush(cfg, |batch'|, clock - batchStarted');
        }
      }
      steps := Advance(Poll(Message(tp), elapsed), start, before);
    }

    lemma TimeoutOfEmpty(age1: int, age2: int)
      ensures PollTimeout(cfg, 0, age1) == PollTimeout(cfg, 0, age2)
    {
    }

    /** Nothing arrived, or an error of the broker's: the latter leads to no flush, even of an expired batch. */
    method PollNothing(result: PollResult, elapsed: nat, batch: seq<Consumed>, batchStarted: int, ghost start: Writer,
                       ghost before: seq<Step>)
      returns (flushNow: bool, ghost steps: seq<Step>)
      requires !result.Message? && elapsed <= PollTimeout(cfg, |batch|, clock - batchStarted)
      requires Coupled(batch) && model.phase.Polling? && model == Run(cfg, log, start, before)
      requires batch != [] ==> model.batchStarted == batchStarted
      modifies this`model, this`clock
      ensures Coupled(batch) && (batch != [] ==> model.batchStarted == batchStarted)
        && model == Run(cfg, log, start, steps)
      ensures model.phase == if flushNow then Flushing(Resume) else Polling
      ensures flushNow ==> batch != []
    {
      hide Run, PollTimeout, Expired;
      assert elapsed <= PollTimeout(cfg, |batch|, Age(model)) by { TimeoutOfEmpty(clock - batchStarted, Age(model)); }
      clock := clock + elapsed;
      flushNow := result.Idle? && batch != [] && Expired(cfg, clock - batchStarted);
      steps := Advance(Poll(result, elapsed), start, before);
    }

    /** Polls once, for at most the poll timeout. */
    method PollOnce(batch: seq<Consumed>, batchStarted: int, ghost start: Writer, ghost before: seq<Step>)
      returns (batch': seq<Consumed>, batchStarted': int, invalid: Option<Position>, flushNow: bool,
        ghost steps: seq<Step>)
      requires Coupled(batch) && model.phase.Polling? && model == Run(cfg, log, start, before) && consumer.log == log
      requires batch != [] ==> model.batchStarted == batchStarted
      modifies this`model, this`clock, consumer`position
      ensures Coupled(batch') && (batch' != [] ==> model.batchStarted == batchStarted')
        && model == Run(cfg, log, start, steps)
      ensures invalid.Some? ==> model.phase == if batch' != [] then Flushing(SkipInvalid(invalid.value))
        else CommittingInvalid(invalid.value)
      ensures invalid.None? ==> model.phase == if flushNow then Flushing(Resume) else Polling
      ensures flushNow ==> invalid.None? && batch' != []
    {
      hide Run, PollTimeout, Coupled;
      var result: PollResult, wait: nat := *, *;
      var timeout := PollTimeout(cfg, |batch|, clock - batchStarted);
      var elapsed := if wait <= timeout then wait else timeout;
      if result.Message? {
        batch', batchStarted', invalid, flushNow, steps :=
          TakeMessage(result.tp, elapsed, batch, batchStarted, start, before);
      } else {
        batch', batchStarted', invalid := batch, batchStarted, None;
        flushNow, steps := PollNothing(result, elapsed, batch, batchStarted, start, before);
      }
    }

    /** One turn of the main loop; it is not `alive` when the loop is over or the process died. */
    method Turn(batch: seq<Consumed>, batchStarted: int, budget: nat, ghost start: Writer, ghost before: seq<Step>)
      returns (alive: bool, batch': seq<Consumed>, batchStarted': int, ghost steps: seq<Step>)
      requires Coupled(batch) && model.phase.Polling? && !stop && model == Run(cfg, log, start, before)
        && consumer.log == log
      requires batch != [] ==> model.batchStarted == batchStarted
      modifies this, store, consumer
      ensures model == Run(cfg, log, start, steps)
      ensures alive ==>
        Coupled(batch') && model.phase.Polling?
        && (batch' != [] ==> model.batchStarted == batchStarted')
      ensures !alive ==>
        (model.phase.Stopped? || model.phase.Down?) && model.committed == consumer.committed
        && model.rows == store.rows
    {
      hide Run, Step1, KeysOf;
      var invalid, flushNow;
      steps := MaybeStop(batch, start, before);
      batch', batchStarted', invalid, flushNow, steps := PollOnce(batch, batchStarted, start, steps);
      steps := MaybeStop(batch', start, steps);
      var result := Flushed;
      if invalid.Some? {
        result, steps := HandleInvalidMessage(batch', invalid.value, budget, start, steps);
        batch' := [];
      } else if flushNow {
        result, steps := Flush(batch', budget, start, steps);
        batch' := [];
      }
      alive := result.Flushed?;
    }
  }
}
