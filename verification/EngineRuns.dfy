/** Runs of the distribution engine: the polling thread, the bounded hand-off, Redis processing with
    retries, cross-thread acknowledgements, coalesced commits, shutdown, crash and restart.
    Every sequence of steps is a run; a step that the current state does not allow changes nothing. */
module EngineRuns {
  import opened Events
  import opened Acknowledgements

  /** How a Redis call ends. `Lost` took effect although the caller saw an error. */
  datatype RedisAnswer = Done | Refused | Lost

  datatype Thread =
    | Polling
    | Putting(item: Consumed)
    | Leaving(lost: Option<Consumed>)
    | Closed(lost: Option<Consumed>)

  /** The task between events; before an attempt, when it looks at the shutdown flag; within one, when it does
      not; and after it gave up. */
  datatype Task = Waiting | Ready(item: Consumed) | Busy(item: Consumed, updated: bool) | GaveUp(item: Consumed)

  /** A snapshot in Redis, with the record it was last written from. */
  datatype Stored = Stored(data: SnapshotData, origin: Position)

  datatype Engine = Engine(
    // survives a crash
    committed: map<TopicPartition, nat>,
    snapshots: map<Symbol, Stored>,
    // one process
    up: bool,
    position: map<TopicPartition, nat>,
    bridge: Bridge,
    thread: Thread,
    task: Task,
    stopEvent: bool,
    shutdown: bool,
    // what has happened: in this process ...
    runStart: map<TopicPartition, nat>,
    first: map<TopicPartition, nat>,
    open: set<Position>,
    done: set<Position>,
    // ... and ever: what was published, and the offset from which on a partition's commits cover it
    published: set<Position>,
    since: map<TopicPartition, nat>)

  datatype Step =
    | Start(fallback: map<TopicPartition, nat>)
    | Crash
    | PollRecord(tp: TopicPartition, now: int)
    | PutDone
    | PutFails(landed: bool)
    | LeaveLoop
    | Drain(commit: CommitAnswer)
    | TakeNext
    | BeginAttempt
    | UpdateSnapshot(update: RedisAnswer)
    | PublishEvent(publish: RedisAnswer)
    | StopRetrying
    | Shutdown

  /** A deployment whose consumer group has exactly the committed offsets in `base`. */
  function Deployed(base: map<TopicPartition, nat>): Engine {
    Engine(base, map[], false, map[], EMPTY_BRIDGE, Polling, Waiting, false, false, map[], map[], {}, {}, {}, base)
  }

  /** The committed offsets lie within the log. */
  predicate Fits(log: Log, base: map<TopicPartition, nat>) {
    forall tp | tp in base && tp in log :: base[tp] <= |log[tp]|
  }

  /** A partition's first commit covers it from where the process began to read. */
  function Covering(since: map<TopicPartition, nat>, runStart: map<TopicPartition, nat>,
                    committed: map<TopicPartition, nat>)
    : map<TopicPartition, nat>
  {
    map tp | tp in committed ::
      if tp in since then since[tp] else if tp in runStart then runStart[tp] else committed[tp]
  }

  // ---- the steps ----

  /** With `auto.offset.reset=latest` a partition without a committed offset starts at whatever the
      log's end is at that moment. */
  function StartPosition(log: Log, s: Engine, fallback: map<TopicPartition, nat>, tp: TopicPartition): nat
    requires tp in log
  {
    if tp in s.committed then s.committed[tp]
    else if tp in fallback && fallback[tp] <= |log[tp]| then fallback[tp]
    else |log[tp]|
  }

  function Started(log: Log, s: Engine, fallback: map<TopicPartition, nat>): (t: Engine)
    ensures t.committed == s.committed && t.since == s.since && t.published == s.published
  {
    if s.up then s
    else
      var position := map tp | tp in log :: StartPosition(log, s, fallback, tp);
      s.(up := true, position := position, bridge := EMPTY_BRIDGE, thread := Polling, task := Waiting,
         stopEvent := false, shutdown := false, runStart := position, first := map[], open := {}, done := {})
  }

  /** The two agree on the cursors, on where they began and on what the broker holds. */
  predicate SameTracking(s: Engine, t: Engine) {
    && t.up == s.up && t.runStart == s.runStart && t.first == s.first && t.bridge.next == s.bridge.next
    && t.committed == s.committed
  }

  /** The two agree on Redis and on the record in hand. */
  predicate SameRedis(s: Engine, t: Engine) {
    && t.up == s.up && t.snapshots == s.snapshots && t.task == s.task && t.done == s.done && t.runStart == s.runStart
    && t.shutdown == s.shutdown
  }

  /** A malformed record is passed over without being tracked. */
  function Polled(log: Log, s: Engine, tp: TopicPartition, now: int): (t: Engine)
    ensures t == s.(position := t.position, bridge := s.bridge.(next := t.bridge.next), thread := t.thread,
                    open := t.open, first := t.first)
  {
    if !(s.up && s.thread.Polling? && tp in log && tp in s.position && s.position[tp] < |log[tp]|) then s
    else
      var o := s.position[tp];
      match log[tp][o]
      case Malformed => s.(position := s.position[tp := o + 1])
      case Valid(e) =>
        var c := Consumed(e.(serverTs := now), tp, o);
        s.(position := s.position[tp := o + 1], bridge := Track(s.bridge, c), thread := Putting(c),
          open := s.open + {c.Place()},
               first := if tp in s.first then s.first else s.first[tp := o])
  }

  function Put(s: Engine): (t: Engine)
    ensures t == s.(bridge := s.bridge.(queue := t.bridge.queue), thread := t.thread)
  {
    if s.up && s.thread.Putting? && |s.bridge.queue| < HANDOFF_MAX_SIZE then
      s.(bridge := s.bridge.(queue := s.bridge.queue + [s.thread.item]), thread := Polling)
    else s
  }

  /** A cancelled or failed hand-off ends the polling loop. The item may have been queued all the same. */
  function PutFailed(s: Engine, landed: bool): (t: Engine)
    ensures t == s.(bridge := s.bridge.(queue := t.bridge.queue), thread := t.thread)
  {
    if !(s.up && s.thread.Putting?) then s
    else if landed && |s.bridge.queue| < HANDOFF_MAX_SIZE then
      s.(bridge := s.bridge.(queue := s.bridge.queue + [s.thread.item]), thread := Leaving(None))
    else s.(thread := Leaving(Some(s.thread.item)))
  }

  function LeftLoop(s: Engine): (t: Engine)
    ensures t == s.(thread := t.thread)
  {
    if s.up && s.thread.Polling? && s.stopEvent then s.(thread := Leaving(None)) else s
  }

  function DrainStep(s: Engine, commit: CommitAnswer): (t: Engine)
    ensures t.published == s.published && SameRedis(s, t)
  {
    if s.up && (s.thread.Polling? || s.thread.Leaving?) then
      s.(bridge := Drained(s.bridge, commit.Accepted?),
         committed := AfterCommit(s.committed, Proposed(s.bridge), commit),
         since := Covering(s.since, s.runStart, AfterCommit(s.committed, Proposed(s.bridge), commit)),
         thread := if s.thread.Leaving? then Closed(s.thread.lost) else s.thread)
    else s
  }

  function Taken(s: Engine): (t: Engine)
    ensures t == s.(task := t.task, bridge := s.bridge.(queue := t.bridge.queue))
  {
    if s.up && s.task.Waiting? && s.bridge.queue != [] then
      s.(task := Ready(s.bridge.queue[0]), bridge := s.bridge.(queue := s.bridge.queue[1..]))
    else s
  }

  /** The flag is looked at before an attempt only: a shutdown does not stop one in progress. */
  function AttemptBegun(s: Engine): (t: Engine)
    ensures t == s.(task := t.task)
  {
    if s.up && s.task.Ready? && !s.shutdown then s.(task := Busy(s.task.item, false)) else s
  }

  function Updated(s: Engine, answer: RedisAnswer): (t: Engine)
    ensures t == s.(snapshots := t.snapshots, task := t.task)
  {
    if !(s.up && s.task.Busy? && !s.task.updated) then s
    else
      var c := s.task.item;
      s.(snapshots := if answer.Refused? then s.snapshots
                      else s.snapshots[c.event.symbol := Stored(SnapshotOf(c.event), c.Place())],
         task := if answer.Done? then Busy(c, true) else Ready(c))
  }

  /** A publish that fails, or seems to, sends the event back to the next attempt. */
  function PublishedStep(s: Engine, answer: RedisAnswer): (t: Engine)
    ensures t.committed == s.committed && t.since == s.since
    ensures t.published == s.published
      || (s.up && s.task.Busy? && t.published == s.published + {s.task.item.Place()})
    ensures SameTracking(s, t)
  {
    if !(s.up && s.task.Busy? && s.task.updated) then s
    else
      var c := s.task.item;
      match answer
      case Refused => s.(task := Ready(c))
      case Lost => s.(task := Ready(c), published := s.published + {c.Place()})
      case Done => s.(task := Waiting, published := s.published + {c.Place()},
                      bridge := Acknowledge(s.bridge, c), open := s.open - {c.Place()}, done := s.done + {c.Place()})
  }

  function StoppedRetrying(s: Engine): (t: Engine)
    ensures t == s.(task := t.task, stopEvent := t.stopEvent)
  {
    if s.up && s.task.Ready? && s.shutdown then s.(task := GaveUp(s.task.item), stopEvent := true)
    else s
  }

  function Step1(log: Log, s: Engine, step: Step): Engine {
    match step
    case Start(fallback) => Started(log, s, fallback)
    case Crash => s.(up := false)
    case PollRecord(tp, now) => Polled(log, s, tp, now)
    case PutDone => Put(s)
    case PutFails(landed) => PutFailed(s, landed)
    case LeaveLoop => LeftLoop(s)
    case Drain(commit) => DrainStep(s, commit)
    case TakeNext => Taken(s)
    case BeginAttempt => AttemptBegun(s)
    case UpdateSnapshot(answer) => Updated(s, answer)
    case PublishEvent(answer) => PublishedStep(s, answer)
    case StopRetrying => StoppedRetrying(s)
    case Shutdown => s.(shutdown := true, stopEvent := true)
  }

  function Run(log: Log, s: Engine, steps: seq<Step>): Engine {
    if steps == [] then s else Step1(log, Run(log, s, steps[..|steps| - 1]), steps[|steps| - 1])
  }

  // ---- what every run keeps ----

  /** Events of one symbol all live in one partition: the producer keys records by symbol. */
  ghost predicate OneHome(log: Log) {
    forall p, q :: ValidAt(log, p) && ValidAt(log, q) && EventAt(log, p).symbol == EventAt(log, q).symbol ==>
      p.tp == q.tp
  }

  /** A snapshot apart from its timestamp, which is stamped anew each time a record is parsed. */
  function Timeless(d: SnapshotData): SnapshotData {
    d.(ts := 0)
  }

  ghost predicate Genuine(log: Log, c: Consumed) {
    ValidAt(log, c.Place()) && c.event == EventAt(log, c.Place()).(serverTs := c.event.serverTs)
  }

  function TaskItems(task: Task): seq<Consumed> {
    if task.Waiting? then [] else [task.item]
  }

  function ThreadItems(thread: Thread): seq<Consumed> {
    match thread
    case Polling => []
    case Putting(c) => [c]
    case Leaving(lost) => if lost.Some? then [lost.value] else []
    case Closed(lost) => if lost.Some? then [lost.value] else []
  }

  /** What is stored for symbol `y` is the record it was written from. */
  ghost predicate Backed(log: Log, y: Symbol, stored: Stored) {
    && ValidAt(log, stored.origin) && EventAt(log, stored.origin).symbol == y
    && Timeless(stored.data) == Timeless(SnapshotOf(EventAt(log, stored.origin)))
  }

  /** The record at `p` was published, and its symbol's snapshot was last written by it or a later one. */
  ghost predicate Effected(log: Log, p: Position, published: set<Position>, snapshots: map<Symbol, Stored>)
    requires ValidAt(log, p)
  {
    && p in published
    && EventAt(log, p).symbol in snapshots
    && p.offset <= snapshots[EventAt(log, p).symbol].origin.offset
  }

  /** Redis and the broker agree: each snapshot is a record's, and of a partition with a committed offset
      every valid record from where its commits began up to that offset has taken effect. */
  ghost predicate DurableOk(log: Log, since: map<TopicPartition, nat>, committed: map<TopicPartition, nat>,
                            snapshots: map<Symbol, Stored>, published: set<Position>)
  {
    && (forall tp | tp in committed :: tp in since && since[tp] <= committed[tp])
    && (forall tp | tp in since :: tp in committed)
    && (forall tp | tp in committed && tp in log :: committed[tp] <= |log[tp]|)
    && (forall y {:trigger y in snapshots} | y in snapshots :: Backed(log, y, snapshots[y]))
    && (forall p {:trigger p in published} ::
          ValidAt(log, p) && p.tp in since && p.tp in committed && since[p.tp] <= p.offset < committed[p.tp] ==>
          Effected(log, p, published, snapshots))
  }

  /** The records handed over and not yet finished, in the order they were polled. */
  function Flight(s: Engine): seq<Consumed> {
    TaskItems(s.task) + s.bridge.queue + ThreadItems(s.thread)
  }

  ghost predicate RangesOk(log: Log, runStart: map<TopicPartition, nat>, position: map<TopicPartition, nat>) {
    forall tp | tp in log :: tp in runStart && tp in position && runStart[tp] <= position[tp] <= |log[tp]|
  }

  ghost predicate FlightOk(log: Log, position: map<TopicPartition, nat>, flight: seq<Consumed>, open: set<Position>) {
    && |open| == |flight|
    && (forall p | p in open :: p.tp in position && p.offset < position[p.tp])
    && (forall c | c in flight :: Genuine(log, c) && c.Place() in open)
    && (forall i, j | 0 <= i < j < |flight| :: flight[i].tp == flight[j].tp ==> flight[i].offset < flight[j].offset)
  }

  /** Finished records are published, lie before those in flight, and their symbol's snapshot was last
      written by them or a later record. */
  ghost predicate DoneOk(log: Log, position: map<TopicPartition, nat>, flight: seq<Consumed>, done: set<Position>) {
    && (forall p | p in done :: ValidAt(log, p) && p.tp in position && p.offset < position[p.tp])
    && (forall p, c | p in done && c in flight :: p.tp == c.tp ==> p.offset < c.offset)
  }

  ghost predicate EffectsOk(log: Log, done: set<Position>, published: set<Position>, snapshots: map<Symbol, Stored>,
                            task: Task)
  {
    && (forall p {:trigger p in done} | p in done :: ValidAt(log, p) ==> Effected(log, p, published, snapshots))
    && (task.Busy? && task.updated ==>
          task.item.event.symbol in snapshots && snapshots[task.item.event.symbol].origin == task.item.Place())
  }

  /** Every valid record polled by this process is finished or in flight. */
  ghost predicate PolledOk(log: Log, runStart: map<TopicPartition, nat>, position: map<TopicPartition, nat>,
                           open: set<Position>, done: set<Position>)
  {
    && (forall p {:trigger p in open} ::
         ValidAt(log, p) && p.tp in runStart && p.tp in position && runStart[p.tp] <= p.offset < position[p.tp] ==>
          p in open || p in done)
    && (forall p {:trigger p in open} | p in open :: p.tp in runStart && runStart[p.tp] <= p.offset)
  }

  /** Tracking of a partition began at its first valid record, and its cursor only passed finished ones. */
  ghost predicate CursorsOk(log: Log, runStart: map<TopicPartition, nat>, position: map<TopicPartition, nat>,
                            first: map<TopicPartition, nat>, next: map<TopicPartition, nat>, done: set<Position>)
  {
    && (forall tp | tp in next :: tp in first)
    && (forall tp | tp in first :: tp in next && tp in runStart && runStart[tp] <= first[tp] <= next[tp])
    && (forall tp | tp in first :: tp in position && first[tp] < position[tp])
    && (forall p ::
          ValidAt(log, p) && p.tp in runStart && p.tp in position && runStart[p.tp] <= p.offset < position[p.tp] ==>
            p.tp in first && first[p.tp] <= p.offset)
    && (forall tp, o: nat :: tp in first && first[tp] <= o < next[tp] ==> Position(tp, o) in done)
  }

  /** Commits began to cover a partition no later than where this process began to read it. */
  ghost predicate SinceOk(since: map<TopicPartition, nat>, runStart: map<TopicPartition, nat>) {
    forall tp | tp in since && tp in runStart :: since[tp] <= runStart[tp]
  }

  /** Only finished records are acknowledged. */
  ghost predicate AcksOk(pending: PendingMap, acks: seq<Consumed>, done: set<Position>) {
    && (forall c | c in acks :: c.Place() in done)
    && (forall tp, o {:trigger o in pending[tp]} | tp in pending && o in pending[tp] :: Position(tp, o) in done)
  }

  ghost predicate CommitsOk(log: Log, runStart: map<TopicPartition, nat>, committed: map<TopicPartition, nat>,
                            done: set<Position>)
  {
    && (forall tp | tp in committed && tp in runStart :: runStart[tp] <= committed[tp])
    && (forall p {:trigger p in done} ::
         ValidAt(log, p) && p.tp in runStart && p.tp in committed && runStart[p.tp] <= p.offset < committed[p.tp] ==>
           p in done)
  }

  /** The broker's offset never runs ahead of the consumer, and from the first tracked record on it only
      covers finished ones. */
  ghost predicate AheadOk(position: map<TopicPartition, nat>, first: map<TopicPartition, nat>,
                          committed: map<TopicPartition, nat>, done: set<Position>)
  {
    && (forall tp | tp in committed && tp in position :: committed[tp] <= position[tp])
    && (forall tp, o: nat {:trigger Position(tp, o)} ::
         tp in first && tp in committed && first[tp] <= o < committed[tp] ==> Position(tp, o) in done)
  }

  /** Each finished record is below its partition's cursor, pending or still in the acknowledgement queue,
      and in only one of these. */
  ghost predicate LedgerOk(next: map<TopicPartition, nat>, pending: PendingMap, acks: seq<Consumed>,
                           done: set<Position>)
  {
    && (forall p {:trigger p in done} | p in done ::
          p.tp in next && (p.offset < next[p.tp] || (p.tp in pending && p.offset in pending[p.tp])
            || p in Places(acks)))
    && (forall tp, o {:trigger o in pending[tp]} | tp in pending && o in pending[tp] ::
         tp in next && next[tp] <= o && Position(tp, o) !in Places(acks))
    && (forall c | c in acks :: c.tp in next && next[c.tp] <= c.offset)
    && (forall i, j | 0 <= i < j < |acks| :: acks[i].Place() != acks[j].Place())
  }

  ghost predicate ProcessOk(log: Log, s: Engine) {
    && RangesOk(log, s.runStart, s.position) && SinceOk(s.since, s.runStart)
    && FlightOk(log, s.position, Flight(s), s.open)
    && DoneOk(log, s.position, Flight(s), s.done)
    && EffectsOk(log, s.done, s.published, s.snapshots, s.task)
    && PolledOk(log, s.runStart, s.position, s.open, s.done)
    && CursorsOk(log, s.runStart, s.position, s.first, s.bridge.next, s.done)
    && AcksOk(s.bridge.pending, s.bridge.acks, s.done)
    && CommitsOk(log, s.runStart, s.committed, s.done)
    && AheadOk(s.position, s.first, s.committed, s.done)
    && LedgerOk(s.bridge.next, s.bridge.pending, s.bridge.acks, s.done)
  }

  ghost predicate Inv(log: Log, s: Engine) {
    DurableOk(log, s.since, s.committed, s.snapshots, s.published) && (s.up ==> ProcessOk(log, s))
  }

  // ---- each part survives each kind of change ----

  lemma FlightGrows(log: Log, position: map<TopicPartition, nat>, flight: seq<Consumed>, open: set<Position>,
                    done: set<Position>, c: Consumed)
    requires FlightOk(log, position, flight, open) && DoneOk(log, position, flight, done)
    requires Genuine(log, c) && c.tp in position && c.offset == position[c.tp]
    ensures FlightOk(log, position[c.tp := c.offset + 1], flight + [c], open + {c.Place()})
    ensures DoneOk(log, position[c.tp := c.offset + 1], flight + [c], done)
  {
    forall i | 0 <= i < |flight| && flight[i].tp == c.tp ensures flight[i].offset < c.offset {
      assert flight[i] in flight && flight[i].Place() in open;
    }
  }

  lemma FlightWaits(log: Log, position: map<TopicPartition, nat>, flight: seq<Consumed>, open: set<Position>,
                    done: set<Position>, tp: TopicPartition)
    requires FlightOk(log, position, flight, open) && DoneOk(log, position, flight, done) && tp in position
    ensures FlightOk(log, position[tp := position[tp] + 1], flight, open)
    ensures DoneOk(log, position[tp := position[tp] + 1], flight, done)
  {
  }

  lemma FlightLands(log: Log, position: map<TopicPartition, nat>, c: Consumed, rest: seq<Consumed>, open: set<Position>,
                    done: set<Position>)
    requires FlightOk(log, position, [c] + rest, open) && DoneOk(log, position, [c] + rest, done)
    ensures Genuine(log, c) && c.Place() in open
    ensures FlightOk(log, position, rest, open - {c.Place()})
    ensures DoneOk(log, position, rest, done + {c.Place()})
  {
    var flight := [c] + rest;
    assert flight[0] == c && flight[1..] == rest;
    assert c in flight;
    forall d | d in rest ensures d in flight && (d.tp == c.tp ==> c.offset < d.offset) {
      var i :| 0 <= i < |rest| && rest[i] == d;
      assert flight[i + 1] == d;
    }
    forall i, j | 0 <= i < j < |rest| && rest[i].tp == rest[j].tp ensures rest[i].offset < rest[j].offset {
      assert flight[i + 1] == rest[i] && flight[j + 1] == rest[j];
    }
  }

  lemma PollStaysInRange(log: Log, runStart: map<TopicPartition, nat>, position: map<TopicPartition, nat>,
                         tp: TopicPartition)
    requires RangesOk(log, runStart, position) && tp in log && tp in position && position[tp] < |log[tp]|
    ensures tp in runStart && runStart[tp] <= position[tp]
    ensures RangesOk(log, runStart, position[tp := position[tp] + 1])
  {
  }

  /** What polling the record at `tp`'s position does to the tracking maps. */
  ghost predicate TracksFrom(log: Log, s: Engine, tp: TopicPartition, first: map<TopicPartition, nat>,
                             next: map<TopicPartition, nat>)
    requires tp in s.position
  {
    var o := s.position[tp];
    if !ValidAt(log, Position(tp, o)) then first == s.first && next == s.bridge.next
    else
      && first == (if tp in s.first then s.first else s.first[tp := o])
      && next == (if tp in s.bridge.next then s.bridge.next else s.bridge.next[tp := o])
  }

  lemma PollTracks(log: Log, s: Engine, tp: TopicPartition, first: map<TopicPartition, nat>,
                   next: map<TopicPartition, nat>)
    requires CursorsOk(log, s.runStart, s.position, s.first, s.bridge.next, s.done)
    requires tp in s.position && tp in s.runStart && s.runStart[tp] <= s.position[tp]
      && TracksFrom(log, s, tp, first, next)
    ensures CursorsOk(log, s.runStart, s.position[tp := s.position[tp] + 1], first, next, s.done)
  {
  }

  lemma PollKeepsAhead(log: Log, s: Engine, tp: TopicPartition, first: map<TopicPartition, nat>,
                       next: map<TopicPartition, nat>)
    requires AheadOk(s.position, s.first, s.committed, s.done) && tp in s.position
      && TracksFrom(log, s, tp, first, next)
    ensures AheadOk(s.position[tp := s.position[tp] + 1], first, s.committed, s.done)
  {
  }

  lemma PollKeepsLedger(log: Log, s: Engine, tp: TopicPartition, first: map<TopicPartition, nat>,
                        next: map<TopicPartition, nat>)
    requires LedgerOk(s.bridge.next, s.bridge.pending, s.bridge.acks, s.done) && tp in s.position
      && TracksFrom(log, s, tp, first, next)
    ensures LedgerOk(next, s.bridge.pending, s.bridge.acks, s.done)
  {
    hide Places;
  }

  lemma PollCovers(log: Log, runStart: map<TopicPartition, nat>, position: map<TopicPartition, nat>,
                   open: set<Position>, open': set<Position>, done: set<Position>, tp: TopicPartition)
    requires PolledOk(log, runStart, position, open, done) && tp in position
      && open <= open' <= open + {Position(tp, position[tp])}
    requires tp in runStart && runStart[tp] <= position[tp]
    requires ValidAt(log, Position(tp, position[tp])) ==> Position(tp, position[tp]) in open'
    ensures PolledOk(log, runStart, position[tp := position[tp] + 1], open', done)
  {
    forall p | ValidAt(log, p) && p.tp in runStart && p.tp in position && runStart[p.tp] <= p.offset < position[p.tp]
      ensures p in open' || p in done
    {
      assert p in open || p in done;
    }
  }

  lemma FinishCovers(log: Log, runStart: map<TopicPartition, nat>, position: map<TopicPartition, nat>,
                     open: set<Position>, done: set<Position>, p: Position)
    requires PolledOk(log, runStart, position, open, done)
    ensures PolledOk(log, runStart, position, open - {p}, done + {p})
  {
    forall q | ValidAt(log, q) && q.tp in runStart && q.tp in position && runStart[q.tp] <= q.offset < position[q.tp]
      ensures q in open - {p} || q in done + {p}
    {
      assert q in open || q in done;
    }
  }

  lemma EffectsGrow(log: Log, done: set<Position>, published: set<Position>, snapshots: map<Symbol, Stored>,
                    c: Consumed)
    requires EffectsOk(log, done, published, snapshots, Busy(c, true)) && Genuine(log, c)
    ensures EffectsOk(log, done + {c.Place()}, published + {c.Place()}, snapshots, Waiting)
    ensures EffectsOk(log, done, published + {c.Place()}, snapshots, Ready(c))
    ensures EffectsOk(log, done, published, snapshots, Ready(c))
  {
    forall p | p in done && ValidAt(log, p) ensures Effected(log, p, published + {c.Place()}, snapshots) {
      assert Effected(log, p, published, snapshots);
    }
  }

  lemma FinishingKeepsCursors(log: Log, s: Engine, c: Consumed)
    requires CursorsOk(log, s.runStart, s.position, s.first, s.bridge.next, s.done)
    requires AcksOk(s.bridge.pending, s.bridge.acks, s.done) && CommitsOk(log, s.runStart, s.committed, s.done)
    ensures CursorsOk(log, s.runStart, s.position, s.first, s.bridge.next, s.done + {c.Place()})
    ensures AcksOk(s.bridge.pending, s.bridge.acks + [c], s.done + {c.Place()})
    ensures CommitsOk(log, s.runStart, s.committed, s.done + {c.Place()})
  {
    forall p | ValidAt(log, p) && p.tp in s.runStart && p.tp in s.committed
      && s.runStart[p.tp] <= p.offset < s.committed[p.tp]
      ensures p in s.done + {c.Place()}
    {
      assert p in s.done;
    }
  }

  lemma FinishingKeepsLedger(log: Log, s: Engine, c: Consumed)
    requires CursorsOk(log, s.runStart, s.position, s.first, s.bridge.next, s.done)
    requires AcksOk(s.bridge.pending, s.bridge.acks, s.done) && AheadOk(s.position, s.first, s.committed, s.done)
    requires LedgerOk(s.bridge.next, s.bridge.pending, s.bridge.acks, s.done)
    requires c.Place() !in s.done && ValidAt(log, c.Place())
    requires c.tp in s.runStart && s.runStart[c.tp] <= c.offset && c.tp in s.position && c.offset < s.position[c.tp]
    ensures AheadOk(s.position, s.first, s.committed, s.done + {c.Place()})
    ensures LedgerOk(s.bridge.next, s.bridge.pending, s.bridge.acks + [c], s.done + {c.Place()})
  {
    PlacesOfAppend(s.bridge.acks, [c]);
    assert forall p :: p in Places([c]) <==> p == c.Place();
    assert ValidAt(log, c.Place());
    assert Position(c.tp, c.offset) == c.Place();
    hide Places;
    forall i | 0 <= i < |s.bridge.acks| ensures s.bridge.acks[i].Place() != c.Place() {
      assert s.bridge.acks[i] in s.bridge.acks;
    }
  }

  lemma DurableGrows(log: Log, since: map<TopicPartition, nat>, committed: map<TopicPartition, nat>,
                     snapshots: map<Symbol, Stored>, published: set<Position>, p: Position)
    requires DurableOk(log, since, committed, snapshots, published)
    ensures DurableOk(log, since, committed, snapshots, published + {p})
  {
    forall q | ValidAt(log, q) && q.tp in since && q.tp in committed && since[q.tp] <= q.offset < committed[q.tp]
      ensures Effected(log, q, published + {p}, snapshots)
    {
      assert q in published;
    }
  }

  /** Rewriting a symbol's snapshot from a record that every finished and committed one precedes. */
  lemma RewriteKeeps(log: Log, s: Engine, c: Consumed)
    requires OneHome(log) && Genuine(log, c)
    requires DurableOk(log, s.since, s.committed, s.snapshots, s.published)
      && EffectsOk(log, s.done, s.published, s.snapshots, Busy(c, false))
    requires forall p | p in s.done :: p.tp == c.tp ==> p.offset < c.offset
    requires CommitsOk(log, s.runStart, s.committed, s.done)
    requires c.tp in s.runStart && s.runStart[c.tp] <= c.offset
    ensures var snapshots := s.snapshots[c.event.symbol := Stored(SnapshotOf(c.event), c.Place())];
      && DurableOk(log, s.since, s.committed, snapshots, s.published)
      && EffectsOk(log, s.done, s.published, snapshots, Busy(c, true))
      && EffectsOk(log, s.done, s.published, snapshots, Ready(c))
  {
    var snapshots := s.snapshots[c.event.symbol := Stored(SnapshotOf(c.event), c.Place())];
    forall p | ValidAt(log, p) && Effected(log, p, s.published, s.snapshots) && (p.tp == c.tp ==> p.offset < c.offset)
      ensures Effected(log, p, s.published, snapshots)
    {
      if EventAt(log, p).symbol == c.event.symbol {
        assert p.tp == c.Place().tp;
      }
    }
    forall p | ValidAt(log, p) && p.tp in s.since && p.tp in s.committed
      && s.since[p.tp] <= p.offset < s.committed[p.tp]
      ensures Effected(log, p, s.published, snapshots)
    {
      assert p in s.published;
      if p.tp == c.tp && s.runStart[p.tp] <= p.offset {
        assert p in s.done;
      }
    }
  }

  lemma StartRanges(log: Log, s: Engine, fallback: map<TopicPartition, nat>)
    requires DurableOk(log, s.since, s.committed, s.snapshots, s.published) && !s.up
    ensures var t := Started(log, s, fallback);
      && RangesOk(log, t.runStart, t.position) && CommitsOk(log, t.runStart, t.committed, t.done)
      && AheadOk(t.position, t.first, t.committed, t.done) && SinceOk(t.since, t.runStart)
  {
  }

  lemma StartKeeps(log: Log, s: Engine, fallback: map<TopicPartition, nat>)
    requires Inv(log, s)
    ensures Inv(log, Started(log, s, fallback))
  {
    hide DurableOk;
    if !s.up && Inv(log, s) {
      StartRanges(log, s, fallback);
    }
  }

  /** The effect of polling a valid record, field by field. */
  lemma PollFlies(log: Log, s: Engine, tp: TopicPartition, now: int)
    requires s.up && s.thread.Polling? && tp in log && tp in s.position && ValidAt(log, Position(tp, s.position[tp]))
    ensures var t := Polled(log, s, tp, now);
      && t.thread.Putting? && Genuine(log, t.thread.item) && t.thread.item.Place() == Position(tp, s.position[tp])
      && Flight(t) == Flight(s) + [t.thread.item] && t.open == s.open + {t.thread.item.Place()}
  {
  }

  lemma PollIdles(log: Log, s: Engine, tp: TopicPartition, now: int)
    requires !ValidAt(log, Position(tp, if tp in s.position then s.position[tp] else 0))
    ensures Flight(Polled(log, s, tp, now)) == Flight(s)
  {
  }

  lemma PollTracked(log: Log, s: Engine, tp: TopicPartition, now: int)
    requires s.up && s.thread.Polling? && tp in log && tp in s.position && s.position[tp] < |log[tp]|
    ensures TracksFrom(log, s, tp, Polled(log, s, tp, now).first, Polled(log, s, tp, now).bridge.next)
  {
    hide SameRedis, SameTracking;
    var o, t := s.position[tp], Polled(log, s, tp, now);
    match log[tp][o]
    case Malformed => assert t == s.(position := t.position);
    case Valid(e) =>
      assert t.bridge == Track(s.bridge, Consumed(e.(serverTs := now), tp, o)) && ValidAt(log, Position(tp, o));
  }

  lemma PollReads(log: Log, s: Engine, tp: TopicPartition, now: int)
    requires Polled(log, s, tp, now) != s
    ensures s.up && s.thread.Polling? && tp in log && tp in s.position && s.position[tp] < |log[tp]|
    ensures Polled(log, s, tp, now).position == s.position[tp := s.position[tp] + 1]
  {
  }

  lemma PollMoves(log: Log, s: Engine, tp: TopicPartition, now: int)
    requires Polled(log, s, tp, now) != s
    ensures s.up && s.thread.Polling? && tp in log && tp in s.position && s.position[tp] < |log[tp]|
    ensures var t := Polled(log, s, tp, now);
      && t == s.(position := s.position[tp := s.position[tp] + 1], bridge := s.bridge.(next := t.bridge.next),
                 thread := t.thread, open := t.open, first := t.first)
      && s.open <= t.open <= s.open + {Position(tp, s.position[tp])}
      && (ValidAt(log, Position(tp, s.position[tp])) ==> Position(tp, s.position[tp]) in t.open)
      && (!ValidAt(log, Position(tp, s.position[tp])) ==> t.open == s.open)
  {
    PollReads(log, s, tp, now);
    PollOpens(log, s, tp, now);
    hide Polled;
  }

  lemma PollOpens(log: Log, s: Engine, tp: TopicPartition, now: int)
    requires s.up && s.thread.Polling? && tp in log && tp in s.position && s.position[tp] < |log[tp]|
    ensures var p := Position(tp, s.position[tp]);
      Polled(log, s, tp, now).open == if ValidAt(log, p) then s.open + {p} else s.open
  {
  }

  lemma PollKeeps(log: Log, s: Engine, tp: TopicPartition, now: int)
    requires Inv(log, s)
    ensures Inv(log, Polled(log, s, tp, now))
  {
    hide DurableOk, RangesOk, FlightOk, DoneOk, EffectsOk, PolledOk, AcksOk, CommitsOk, AheadOk, LedgerOk, SinceOk,
      CursorsOk, TracksFrom, Flight, Polled;
    var t := Polled(log, s, tp, now);
    if t != s {
      PollMoves(log, s, tp, now);
      PollTracked(log, s, tp, now);
      PollStaysInRange(log, s.runStart, s.position, tp);
      PollCovers(log, s.runStart, s.position, s.open, t.open, s.done, tp);
      PollTracks(log, s, tp, t.first, t.bridge.next);
      PollKeepsAhead(log, s, tp, t.first, t.bridge.next);
      PollKeepsLedger(log, s, tp, t.first, t.bridge.next);
      if ValidAt(log, Position(tp, s.position[tp])) {
        PollFlies(log, s, tp, now);
        FlightGrows(log, s.position, Flight(s), s.open, s.done, t.thread.item);
      } else {
        assert Flight(t) == Flight(s) by { PollIdles(log, s, tp, now); }
        FlightWaits(log, s.position, Flight(s), s.open, s.done, tp);
      }
    }
  }

  lemma PutKeeps(log: Log, s: Engine)
    requires Inv(log, s)
    ensures Inv(log, Put(s))
  {
    hide DurableOk, RangesOk, FlightOk, DoneOk, EffectsOk, PolledOk, CursorsOk, AcksOk, CommitsOk, AheadOk, LedgerOk,
      SinceOk;
    assert Flight(Put(s)) == Flight(s);
  }

  lemma LeaveFlies(s: Engine, landed: bool)
    ensures Flight(PutFailed(s, landed)) == Flight(s) && Flight(LeftLoop(s)) == Flight(s)
  {
  }

  lemma LeaveKeeps(log: Log, s: Engine, landed: bool)
    requires Inv(log, s)
    ensures Inv(log, PutFailed(s, landed)) && Inv(log, LeftLoop(s))
  {
    LeaveFlies(s, landed);
    hide DurableOk, RangesOk, FlightOk, DoneOk, EffectsOk, PolledOk, CursorsOk, AcksOk, CommitsOk, AheadOk, LedgerOk,
      SinceOk, Flight;
  }

  lemma TakeFlies(s: Engine)
    ensures Flight(Taken(s)) == Flight(s) && Flight(AttemptBegun(s)) == Flight(s)
      && Flight(StoppedRetrying(s)) == Flight(s)
  {
  }

  lemma TakeKeeps(log: Log, s: Engine)
    requires Inv(log, s)
    ensures Inv(log, Taken(s)) && Inv(log, AttemptBegun(s)) && Inv(log, StoppedRetrying(s))
  {
    TakeFlies(s);
    hide DurableOk, RangesOk, FlightOk, DoneOk, PolledOk, CursorsOk, AcksOk, CommitsOk, AheadOk, LedgerOk, SinceOk,
      Flight;
  }

  lemma RefusalKeeps(log: Log, s: Engine)
    requires EffectsOk(log, s.done, s.published, s.snapshots, s.task) && s.task.Busy?
    ensures EffectsOk(log, s.done, s.published, s.snapshots, Ready(s.task.item))
    ensures !s.task.updated ==> s.task == Busy(s.task.item, false)
  {
  }

  lemma UpdateKeeps(log: Log, s: Engine, answer: RedisAnswer)
    requires OneHome(log) && Inv(log, s)
    ensures Inv(log, Updated(s, answer))
  {
    hide DurableOk, EffectsOk, CursorsOk, AcksOk, CommitsOk, AheadOk, LedgerOk, SinceOk;
    var t := Updated(s, answer);
    if t != s {
      var c := s.task.item;
      assert Flight(t) == Flight(s) && c in Flight(s);
      RefusalKeeps(log, s);
      if !answer.Refused? {
        RewriteKeeps(log, s, c);
      }
    }
  }

  lemma FreshInFlight(log: Log, s: Engine, c: Consumed, rest: seq<Consumed>)
    requires FlightOk(log, s.position, [c] + rest, s.open) && DoneOk(log, s.position, [c] + rest, s.done)
    requires PolledOk(log, s.runStart, s.position, s.open, s.done)
    ensures c.Place() !in s.done && ValidAt(log, c.Place()) && c.tp in s.runStart && c.tp in s.position
    ensures s.runStart[c.tp] <= c.offset < s.position[c.tp]
  {
    assert c in [c] + rest;
    assert c.Place() in s.open;
  }

  lemma PublishKeeps(log: Log, s: Engine, answer: RedisAnswer)
    requires Inv(log, s)
    ensures Inv(log, PublishedStep(s, answer))
  {
    hide DurableOk, RangesOk, FlightOk, DoneOk, EffectsOk, PolledOk, CursorsOk, AcksOk, CommitsOk, AheadOk, LedgerOk,
      SinceOk;
    var t := PublishedStep(s, answer);
    if t != s {
      var c, rest := s.task.item, s.bridge.queue + ThreadItems(s.thread);
      assert Flight(s) == [c] + rest;
      assert Flight(t) == if answer.Done? then rest else Flight(s);
      FlightLands(log, s.position, c, rest, s.open, s.done);
      FinishCovers(log, s.runStart, s.position, s.open, s.done, c.Place());
      EffectsGrow(log, s.done, s.published, s.snapshots, c);
      FinishingKeepsCursors(log, s, c);
      FreshInFlight(log, s, c, rest);
      FinishingKeepsLedger(log, s, c);
      DurableGrows(log, s.since, s.committed, s.snapshots, s.published, c.Place());
    }
  }

  /** Whatever a drain proposes to commit, or keeps pending, is finished. */
  lemma DrainCoversFinished(b: Bridge, done: set<Position>, tp: TopicPartition)
    requires AcksOk(b.pending, b.acks, done)
    ensures forall o | o in Acked(b, tp) :: Position(tp, o) in done
    ensures Drained(b, true).next.Keys == b.next.Keys
    ensures tp in Proposed(b) ==> tp in b.next && Proposed(b)[tp] == Drained(b, true).next[tp]
    ensures tp in b.next ==>
      b.next[tp] <= Drained(b, true).next[tp]
      && forall o: nat | b.next[tp] <= o < Drained(b, true).next[tp] :: Position(tp, o) in done
    ensures tp in Proposed(b) ==> b.next[tp] < Proposed(b)[tp]
  {
    DrainIsExact(b, tp);
  }

  lemma DrainKeepsAcks(b: Bridge, done: set<Position>, accepted: bool)
    requires AcksOk(b.pending, b.acks, done)
    ensures AcksOk(Drained(b, accepted).pending, Drained(b, accepted).acks, done)
  {
    var after := Drained(b, accepted);
    forall tp, o | tp in after.pending && o in after.pending[tp] ensures Position(tp, o) in done {
      DrainIsExact(b, tp);
      FailedDrainKeepsAcknowledgements(b, tp);
      assert o in Acked(after, tp);
    }
  }

  lemma DrainMovesCursors(log: Log, s: Engine, accepted: bool)
    requires AcksOk(s.bridge.pending, s.bridge.acks, s.done)
    requires CursorsOk(log, s.runStart, s.position, s.first, s.bridge.next, s.done)
    ensures CursorsOk(log, s.runStart, s.position, s.first, Drained(s.bridge, accepted).next, s.done)
  {
    if accepted {
      forall tp { DrainCoversFinished(s.bridge, s.done, tp); }
    } else {
      assert Drained(s.bridge, false).next == s.bridge.next;
    }
  }

  /** A proposed offset lies within the log, and everything below it is finished or was never polled. */
  lemma ProposedIsFinished(log: Log, s: Engine, tp: TopicPartition)
    requires RangesOk(log, s.runStart, s.position) && DoneOk(log, s.position, Flight(s), s.done)
    requires AcksOk(s.bridge.pending, s.bridge.acks, s.done)
    requires CursorsOk(log, s.runStart, s.position, s.first, s.bridge.next, s.done)
    requires tp in Proposed(s.bridge)
    ensures tp in log && tp in s.runStart && s.runStart[tp] <= Proposed(s.bridge)[tp] <= |log[tp]|
    ensures tp in s.position ==> Proposed(s.bridge)[tp] <= s.position[tp]
    ensures forall o: nat | tp in s.first && s.first[tp] <= o < Proposed(s.bridge)[tp] :: Position(tp, o) in s.done
    ensures forall p {:trigger p in s.done} | ValidAt(log, p) && p.tp == tp
      && s.runStart[tp] <= p.offset < Proposed(s.bridge)[tp] :: p in s.done
  {
    hide AcksOk, Flight;
    DrainCoversFinished(s.bridge, s.done, tp);
    hide Proposed, Drained;
    var last := Position(tp, Proposed(s.bridge)[tp] - 1);
    assert last in s.done && ValidAt(log, last);
  }

  lemma CommitStaysAhead(s: Engine, offsets: map<TopicPartition, nat>, commit: CommitAnswer)
    requires AheadOk(s.position, s.first, s.committed, s.done)
    requires forall tp | tp in offsets :: tp in s.position ==> offsets[tp] <= s.position[tp]
    requires forall tp, o: nat {:trigger Position(tp, o)} ::
      tp in offsets && tp in s.first && s.first[tp] <= o < offsets[tp] ==> Position(tp, o) in s.done
    ensures AheadOk(s.position, s.first, AfterCommit(s.committed, offsets, commit), s.done)
  {
  }

  lemma CommitMoves(log: Log, s: Engine, offsets: map<TopicPartition, nat>, commit: CommitAnswer)
    requires EffectsOk(log, s.done, s.published, s.snapshots, s.task) && RangesOk(log, s.runStart, s.position)
    requires CommitsOk(log, s.runStart, s.committed, s.done) && AheadOk(s.position, s.first, s.committed, s.done)
    requires SinceOk(s.since, s.runStart)
    requires DurableOk(log, s.since, s.committed, s.snapshots, s.published)
    requires forall tp | tp in offsets :: tp in s.position ==> offsets[tp] <= s.position[tp]
    requires forall tp, o: nat {:trigger Position(tp, o)} ::
      tp in offsets && tp in s.first && s.first[tp] <= o < offsets[tp] ==> Position(tp, o) in s.done
    requires forall tp | tp in offsets ::
      && tp in log && tp in s.runStart && s.runStart[tp] <= offsets[tp] <= |log[tp]|
      && forall p {:trigger p in s.done} | ValidAt(log, p) && p.tp == tp && s.runStart[tp] <= p.offset < offsets[tp] ::
           p in s.done
    ensures var committed := AfterCommit(s.committed, offsets, commit);
      && CommitsOk(log, s.runStart, committed, s.done)
      && DurableOk(log, Covering(s.since, s.runStart, committed), committed, s.snapshots, s.published)
      && AheadOk(s.position, s.first, committed, s.done)
      && SinceOk(Covering(s.since, s.runStart, committed), s.runStart)
  {
    var committed := AfterCommit(s.committed, offsets, commit);
    assert CommitsOk(log, s.runStart, committed, s.done);
    CommitStaysAhead(s, offsets, commit);
    hide AheadOk;
    forall tp | tp in committed ensures Covering(s.since, s.runStart, committed)[tp] <= committed[tp] {
      assert tp in s.committed || tp in offsets;
    }
    CommitCovers(log, s, committed);
  }

  /** What newly lies below a committed offset is finished. */
  lemma CommitCovers(log: Log, s: Engine, committed: map<TopicPartition, nat>)
    requires EffectsOk(log, s.done, s.published, s.snapshots, s.task) && CommitsOk(log, s.runStart, committed, s.done)
    requires DurableOk(log, s.since, s.committed, s.snapshots, s.published)
    requires forall tp | tp in s.committed :: tp in committed && (committed[tp] == s.committed[tp] || tp in s.runStart)
    requires forall tp | tp in s.committed && tp in s.runStart :: s.runStart[tp] <= s.committed[tp]
    requires forall tp | tp in committed && tp !in s.committed :: tp in s.runStart
    requires forall tp | tp in committed :: Covering(s.since, s.runStart, committed)[tp] <= committed[tp]
    requires forall tp | tp in committed && tp in log :: committed[tp] <= |log[tp]|
    ensures DurableOk(log, Covering(s.since, s.runStart, committed), committed, s.snapshots, s.published)
  {
    var since := Covering(s.since, s.runStart, committed);
    forall p | ValidAt(log, p) && p.tp in since && p.tp in committed && since[p.tp] <= p.offset < committed[p.tp]
      ensures Effected(log, p, s.published, s.snapshots)
    {
      if p.tp in s.committed && p.offset < s.committed[p.tp] {
        assert p in s.published;
      } else {
        assert p in s.done;
      }
    }
  }

  lemma DrainKeepsLedger(b: Bridge, done: set<Position>, accepted: bool)
    requires LedgerOk(b.next, b.pending, b.acks, done)
    ensures var after := Drained(b, accepted); LedgerOk(after.next, after.pending, after.acks, done)
  {
    var after := Drained(b, accepted);
    assert after.acks == [] && Places([]) == {};
    forall p | p in done
      ensures p.tp in after.next
        && (p.offset < after.next[p.tp] || (p.tp in after.pending && p.offset in after.pending[p.tp]))
    {
      DrainIsExact(b, p.tp);
      FailedDrainKeepsAcknowledgements(b, p.tp);
      assert p.offset < b.next[p.tp] || p.offset in Acked(b, p.tp) by { assert Position(p.tp, p.offset) == p; }
      assert p.offset in Acked(after, p.tp) ==> p.tp in after.pending && p.offset in after.pending[p.tp];
    }
    forall tp, o | tp in after.pending && o in after.pending[tp] ensures tp in after.next && after.next[tp] <= o {
      DrainIsExact(b, tp);
      FailedDrainKeepsAcknowledgements(b, tp);
      assert o in Acked(after, tp) && o in Acked(b, tp);
      assert Position(tp, o) == Position(tp, o);
    }
  }

  lemma DrainKeeps(log: Log, s: Engine, commit: CommitAnswer)
    requires Inv(log, s)
    ensures Inv(log, DrainStep(s, commit))
  {
    hide DurableOk, RangesOk, FlightOk, DoneOk, EffectsOk, PolledOk, CursorsOk, AcksOk, CommitsOk, AheadOk, LedgerOk,
      SinceOk, Proposed, AfterCommit;
    var t := DrainStep(s, commit);
    if t != s {
      DrainMovesCursors(log, s, commit.Accepted?);
      forall tp | tp in Proposed(s.bridge) { ProposedIsFinished(log, s, tp); }
      CommitMoves(log, s, Proposed(s.bridge), commit);
      DrainKeepsAcks(s.bridge, s.done, commit.Accepted?);
      DrainKeepsLedger(s.bridge, s.done, commit.Accepted?);
      assert Flight(t) == Flight(s);
    }
  }

  lemma EndingKeeps(log: Log, s: Engine)
    requires Inv(log, s)
    ensures Inv(log, s.(up := false)) && Inv(log, s.(shutdown := true, stopEvent := true))
  {
    hide DurableOk, RangesOk, FlightOk, DoneOk, EffectsOk, PolledOk, CursorsOk, AcksOk, CommitsOk, AheadOk, LedgerOk;
    assert Flight(s.(shutdown := true, stopEvent := true)) == Flight(s);
  }

  lemma StepKeeps(log: Log, s: Engine, step: Step)
    requires OneHome(log) && Inv(log, s)
    ensures Inv(log, Step1(log, s, step))
  {
    EndingKeeps(log, s);
    hide Inv, Started, Polled, Put, PutFailed, LeftLoop, DrainStep, Taken, AttemptBegun, Updated, PublishedStep,
      StoppedRetrying, OneHome;
    match step
    case Start(fallback) => StartKeeps(log, s, fallback);
    case Crash =>
    case PollRecord(tp, now) => PollKeeps(log, s, tp, now);
    case PutDone => PutKeeps(log, s);
    case PutFails(landed) => LeaveKeeps(log, s, landed);
    case LeaveLoop => LeaveKeeps(log, s, false);
    case Drain(commit) => DrainKeeps(log, s, commit);
    case TakeNext => TakeKeeps(log, s);
    case BeginAttempt => TakeKeeps(log, s);
    case UpdateSnapshot(answer) => UpdateKeeps(log, s, answer);
    case PublishEvent(answer) => PublishKeeps(log, s, answer);
    case StopRetrying => TakeKeeps(log, s);
    case Shutdown =>
  }

  lemma {:induction false} RunKeeps(log: Log, base: map<TopicPartition, nat>, steps: seq<Step>)
    requires OneHome(log) && Fits(log, base)
    ensures Inv(log, Run(log, Deployed(base), steps))
  {
    if steps != [] {
      RunKeeps(log, base, steps[..|steps| - 1]);
      StepKeeps(log, Run(log, Deployed(base), steps[..|steps| - 1]), steps[|steps| - 1]);
    }
  }
}
