/** The engine process as code: the polling thread's loop, with whatever the asyncio side does in between.
    The code is proved to be an execution of the run model, so every guarantee about runs is one about it.
    The environment's answers are arbitrary; a budget of turns that runs out stands for the process dying
    there. */
module EngineProcesses {
  import opened Events
  import opened Acknowledgements
  import opened EngineRuns

  class EngineProcess {
    const log: Log
    const bridge: KafkaConsumerBridge
    const broker: Broker
    var position: map<TopicPartition, nat>
    var thread: Thread
    var task: Task
    var stopEvent: bool
    var shutdown: bool
    ghost var model: Engine

    /** The objects hold what the model's state says. */
    ghost predicate Coupled()
      reads this, bridge, broker
    {
      && model.up && model.bridge == bridge.View() && model.committed == broker.committed && model.position == position
      && model.thread == thread && model.task == task && model.stopEvent == stopEvent && model.shutdown == shutdown
    }

    /** A new process on the group's committed offsets. */
    constructor (log: Log, broker: Broker, fallback: map<TopicPartition, nat>, ghost before: Engine)
      requires !before.up && before.committed == broker.committed
      ensures this.log == log && this.broker == broker && fresh(bridge)
      ensures model == Step1(log, before, Start(fallback)) && Coupled() && thread.Polling?
    {
      this.log, this.broker := log, broker;
      bridge := new KafkaConsumerBridge();
      position := map tp | tp in log ::
        if tp in broker.committed then broker.committed[tp]
        else if tp in fallback && fallback[tp] <= |log[tp]| then fallback[tp] else |log[tp]|;
      thread, task, stopEvent, shutdown := Polling, Task.Waiting, false, false;
      model := Started(log, before, fallback);
    }

    ghost method Advance(step: Step, start: Engine, steps: seq<Step>) returns (more: seq<Step>)
      requires model == Run(log, start, steps)
      modifies this`model
      ensures model == Step1(log, old(model), step) && model == Run(log, start, more)
    {
      more := steps + [step];
      assert more[..|more| - 1] == steps;
      model := Step1(log, model, step);
    }

    // ---- the asyncio side ----

    method RequestShutdown(ghost start: Engine, ghost before: seq<Step>) returns (ghost steps: seq<Step>)
      requires Coupled() && model == Run(log, start, before)
      modifies this`model, this`stopEvent, this`shutdown
      ensures Coupled() && model == Run(log, start, steps)
    {
      hide Run, Started, Polled, PutFailed, DrainStep, Updated, PublishedStep;
      shutdown, stopEvent := true, true;
      steps := Advance(Shutdown, start, before);
    }

    method TakeEvent(ghost start: Engine, ghost before: seq<Step>) returns (ghost steps: seq<Step>)
      requires Coupled() && task.Waiting? && bridge.queue != [] && model == Run(log, start, before)
      modifies this`model, this`task, bridge`queue
      ensures Coupled() && model == Run(log, start, steps)
    {
      hide Run, Started, Polled, PutFailed, DrainStep, Updated, PublishedStep;
      task := Ready(bridge.queue[0]);
      bridge.queue := bridge.queue[1..];
      steps := Advance(TakeNext, start, before);
    }

    method PublishTaken(c: Consumed, answer: RedisAnswer, ghost start: Engine, ghost before: seq<Step>)
      returns (ghost steps: seq<Step>)
      requires Coupled() && task == Busy(c, true) && model == Run(log, start, before)
      modifies this`model, this`task, bridge`acknowledgements
      ensures Coupled() && model == Run(log, start, steps)
    {
      hide Run, Started, Polled, PutFailed, DrainStep, Updated;
      if answer.Done? {
        task := Task.Waiting;
        bridge.AcknowledgeConsumed(c);
      } else {
        task := Ready(c);
      }
      steps := Advance(PublishEvent(answer), start, before);
    }

    method UpdateTaken(c: Consumed, answer: RedisAnswer, ghost start: Engine, ghost before: seq<Step>)
      returns (ghost steps: seq<Step>)
      requires Coupled() && task == Busy(c, false) && model == Run(log, start, before)
      modifies this`model, this`task
      ensures Coupled() && model == Run(log, start, steps)
    {
      hide Run, Started, Polled, PutFailed, DrainStep, PublishedStep;
      task := if answer.Done? then Busy(c, true) else Ready(c);
      steps := Advance(UpdateSnapshot(answer), start, before);
    }

    /** The head of the retry loop. */
    method NextAttempt(c: Consumed, ghost start: Engine, ghost before: seq<Step>) returns (ghost steps: seq<Step>)
      requires Coupled() && task == Ready(c) && model == Run(log, start, before)
      modifies this`model, this`task, this`stopEvent
      ensures Coupled() && model == Run(log, start, steps)
    {
      hide Run, Started, Polled, PutFailed, DrainStep, PublishedStep, Updated;
      if shutdown {
        task, stopEvent := GaveUp(c), true;
        steps := Advance(StopRetrying, start, before);
      } else {
        task := Busy(c, false);
        steps := Advance(BeginAttempt, start, before);
      }
    }

    /** One thing the asyncio side may do while the polling thread waits. */
    method AsyncStep(ghost start: Engine, ghost before: seq<Step>) returns (ghost steps: seq<Step>)
      requires Coupled() && model == Run(log, start, before)
      modifies this`model, this`task, this`stopEvent, this`shutdown, bridge`queue, bridge`acknowledgements
      ensures Coupled() && model == Run(log, start, steps)
    {
      hide Run, Coupled;
      steps := before;
      var answer: RedisAnswer, stop: bool := *, *;
      if stop {
        steps := RequestShutdown(start, steps);
      } else {
        match task
        case Waiting =>
          if bridge.queue != [] {
            steps := TakeEvent(start, steps);
          }
        case Ready(c) => steps := NextAttempt(c, start, steps);
        case Busy(c, updated) =>
          if updated {
            steps := PublishTaken(c, answer, start, steps);
          } else {
            steps := UpdateTaken(c, answer, start, steps);
          }
        case GaveUp(_) =>
      }
    }

    /** Anything the asyncio side does in `turns` turns. */
    method Meanwhile(turns: nat, ghost start: Engine, ghost before: seq<Step>) returns (ghost steps: seq<Step>)
      requires Coupled() && model == Run(log, start, before)
      modifies this`model, this`task, this`stopEvent, this`shutdown, bridge`queue, bridge`acknowledgements
      ensures Coupled() && model == Run(log, start, steps)
    {
      hide Run, Coupled;
      steps := before;
      for i := 0 to turns
        invariant Coupled() && model == Run(log, start, steps)
      {
        steps := AsyncStep(start, steps);
      }
    }

    // ---- the polling thread ----

    method DrainOnce(ghost start: Engine, ghost before: seq<Step>) returns (ghost steps: seq<Step>)
      requires Coupled() && (thread.Polling? || thread.Leaving?) && model == Run(log, start, before)
      modifies this`model, this`thread, bridge, broker
      ensures Coupled() && model == Run(log, start, steps) && position == old(position)
      ensures thread == if old(thread).Leaving? then Closed(old(thread).lost) else old(thread)
      ensures exists answer :: bridge.View() == Drained(old(bridge.View()), answer)
    {
      hide Run;
      var answer: CommitAnswer := *;
      bridge.DrainAcknowledgements(broker, answer);
      if thread.Leaving? {
        thread := Closed(thread.lost);
      }
      steps := Advance(Drain(answer), start, before);
      assert bridge.View() == Drained(old(bridge.View()), answer.Accepted?);
    }

    method PassOver(tp: TopicPartition, now: int, ghost start: Engine, ghost before: seq<Step>)
      returns (ghost steps: seq<Step>)
      requires Coupled() && thread.Polling? && model == Run(log, start, before)
      requires tp in log && tp in position && position[tp] < |log[tp]| && log[tp][position[tp]].Malformed?
      modifies this`model, this`position
      ensures Coupled() && model == Run(log, start, steps) && position == old(position)[tp := old(position)[tp] + 1]
    {
      hide Run, Started, Put, PutFailed, DrainStep, Taken, Updated, PublishedStep, Drained;
      position := position[tp := position[tp] + 1];
      steps := Advance(PollRecord(tp, now), start, before);
    }

    method TrackRecord(e: MarketEvent, tp: TopicPartition, now: int, ghost start: Engine, ghost before: seq<Step>)
      returns (c: Consumed, ghost steps: seq<Step>)
      requires Coupled() && thread.Polling? && model == Run(log, start, before)
      requires tp in log && tp in position && position[tp] < |log[tp]| && log[tp][position[tp]] == Valid(e)
      modifies this`model, this`position, this`thread, bridge`nextCommitOffsets
      ensures Coupled() && model == Run(log, start, steps) && position == old(position)[tp := old(position)[tp] + 1]
      ensures c == Consumed(e.(serverTs := now), tp, old(position)[tp]) && thread == Putting(c)
        && bridge.View() == Track(old(bridge.View()), c)
    {
      hide Run, Started, Put, PutFailed, DrainStep, Taken, Updated, PublishedStep, Drained, Track;
      c := Consumed(e.(serverTs := now), tp, position[tp]);
      position := position[tp := position[tp] + 1];
      bridge.TrackConsumed(c);
      thread := Putting(c);
      steps := Advance(PollRecord(tp, now), start, before);
    }

    /** Takes the next record of `tp`. A malformed one is passed over; a valid one is tracked. */
    method TakeRecord(tp: TopicPartition, now: int, ghost start: Engine, ghost before: seq<Step>)
      returns (taken: Option<Consumed>, ghost steps: seq<Step>)
      requires Coupled() && thread.Polling? && model == Run(log, start, before)
      modifies this`model, this`position, this`thread, bridge`nextCommitOffsets
      ensures Coupled() && model == Run(log, start, steps)
      ensures thread == if taken.Some? then Putting(taken.value) else Polling
      ensures bridge.View() == if taken.Some? then Track(old(bridge.View()), taken.value) else old(bridge.View())
    {
      hide Run, Coupled, Track;
      taken, steps := None, before;
      if tp in log && tp in position && position[tp] < |log[tp]| {
        match log[tp][position[tp]]
        case Malformed =>
          steps := PassOver(tp, now, start, before);
        case Valid(e) =>
          var c;
          c, steps := TrackRecord(e, tp, now, start, before);
          taken := Some(c);
      }
    }

    method TryPut(c: Consumed, ghost start: Engine, ghost before: seq<Step>) returns (ok: bool, ghost steps: seq<Step>)
      requires Coupled() && thread == Putting(c) && model == Run(log, start, before)
      modifies this`model, this`thread, bridge`queue
      ensures Coupled() && model == Run(log, start, steps) && ok == (old(|bridge.queue|) < HANDOFF_MAX_SIZE)
      ensures thread == if ok then Polling else Putting(c)
      ensures bridge.queue == if ok then old(bridge.queue) + [c] else old(bridge.queue)
    {
      hide Run, Started, Polled, PutFailed, DrainStep, Taken, Updated, PublishedStep, Drained;
      steps := before;
      ok := bridge.Handoff(c);
      if ok {
        thread := Polling;
        steps := Advance(PutDone, start, steps);
      }
    }

    method LatePut(c: Consumed, ghost start: Engine, ghost before: seq<Step>)
      returns (landed: bool, ghost steps: seq<Step>)
      requires Coupled() && thread == Putting(c) && model == Run(log, start, before)
      modifies this`model, this`thread, bridge`queue
      ensures Coupled() && model == Run(log, start, steps)
      ensures thread == if landed then Leaving(None) else Putting(c)
      ensures bridge.queue == if landed then old(bridge.queue) + [c] else old(bridge.queue)
    {
      hide Run, Started, Polled, Put, DrainStep, Taken, Updated, PublishedStep, Drained;
      steps := before;
      landed := bridge.Handoff(c);
      if landed {
        thread := Leaving(None);
        steps := Advance(PutFails(true), start, steps);
      }
    }

    /** The wait is over without an answer; the put may have happened all the same. */
    method AbandonPut(c: Consumed, late: bool, ghost start: Engine, ghost before: seq<Step>)
      returns (ghost steps: seq<Step>)
      requires Coupled() && thread == Putting(c) && model == Run(log, start, before)
      modifies this`model, this`thread, bridge`queue
      ensures Coupled() && model == Run(log, start, steps) && thread.Leaving?
      ensures bridge.queue == if thread.lost == Some(c) then old(bridge.queue) else old(bridge.queue) + [c]
    {
      hide Run, Started, Polled, Put, DrainStep, Taken, Updated, PublishedStep, Drained;
      steps := before;
      if late {
        var landed;
        landed, steps := LatePut(c, start, steps);
        if landed {
          return;
        }
      }
      thread := Leaving(Some(c));
      steps := Advance(PutFails(false), start, steps);
    }

    /** Waits for room in the hand-off queue; a stop request, or the asyncio loop going away, ends the wait. */
    method HandOff(c: Consumed, turns: nat, ghost start: Engine, ghost before: seq<Step>)
      returns (ok: bool, ghost steps: seq<Step>)
      requires Coupled() && thread == Putting(c) && model == Run(log, start, before)
      modifies this, bridge`queue, bridge`acknowledgements
      ensures Coupled() && model == Run(log, start, steps)
      ensures if ok then thread.Polling? else thread.Leaving?
    {
      hide Run, Coupled;
      steps := before;
      var i := 0;
      while !stopEvent && i < turns
        invariant Coupled() && thread == Putting(c) && model == Run(log, start, steps)
      {
        i := i + 1;
        ok, steps := TryPut(c, start, steps);
        if ok {
          return;
        }
        steps := AsyncStep(start, steps);
      }
      var late: bool := *;
      ok := false;
      steps := AbandonPut(c, late, start, steps);
    }

    /** The polling loop, from a new process to its end. */
    method ConsumeLoop(turns: nat, ghost start: Engine, ghost before: seq<Step>) returns (ghost steps: seq<Step>)
      requires Coupled() && thread.Polling? && model == Run(log, start, before)
      modifies this, bridge, broker
      ensures model == Run(log, start, steps) && model.committed == broker.committed
      ensures (Coupled() && thread.Closed?) || !model.up
    {
      hide Run, Started, Polled, Put, PutFailed, DrainStep, Taken, Updated, PublishedStep, Drained;
      steps := before;
      var i := 0;
      while !stopEvent && thread.Polling? && i < turns
        invariant Coupled() && (thread.Polling? || thread.Leaving?) && model == Run(log, start, steps)
      {
        i := i + 1;
        steps := DrainOnce(start, steps);
        steps := Meanwhile(turns, start, steps);
        var tp: TopicPartition, now: int := *, *;
        var taken;
        taken, steps := TakeRecord(tp, now, start, steps);
        if taken.Some? {
          var ok;
          ok, steps := HandOff(taken.value, turns, start, steps);
        }
      }
      if thread.Polling? && stopEvent {
        thread := Leaving(None);
        steps := Advance(LeaveLoop, start, steps);
      }
      if thread.Leaving? {
        steps := DrainOnce(start, steps);
      } else {
        steps := Advance(Crash, start, steps);
      }
    }
  }
}
