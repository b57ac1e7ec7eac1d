/** What the tick writer guarantees over every run of crashes, restarts, stops, ambiguous inserts and
    poison records. */
module TickWriterGuarantees {
  import opened Events
  import opened TickWriterRuns

  ghost predicate Reachable(cfg: Config, log: Log, w: Writer) {
    exists steps :: w == Run(cfg, log, FRESH, steps)
  }

  /** The keys of all valid records of the log. */
  ghost function ValidKeys(log: Log): set<RowKey> {
    set tp, o: nat | tp in log && o < |log[tp]| && log[tp][o].Valid? :: KeyOf(log[tp][o].event)
  }

  /** The valid records from one offset per partition up to another. */
  ghost function Between(log: Log, from: map<TopicPartition, nat>, to: map<TopicPartition, nat>): set<Position> {
    set tp, o: nat | tp in log && o < |log[tp]| && tp in from && tp in to && from[tp] <= o < to[tp]
      && ValidAt(log, Position(tp, o))
      :: Position(tp, o)
  }

  ghost predicate Exact(log: Log, c: Consumed) {
    ValidAt(log, c.Place()) && c.event == EventAt(log, c.Place())
  }

  ghost predicate RangesOk(log: Log, committed: map<TopicPartition, nat>, flushedTo: map<TopicPartition, nat>,
                           position: map<TopicPartition, nat>)
  {
    forall tp | tp in log ::
      tp in position && tp in flushedTo && flushedTo[tp] <= position[tp] <= |log[tp]|
        && CommittedAt(committed, tp) <= position[tp]
  }

  /** Every valid record below `bound` is stored. */
  ghost predicate StoredBelow(log: Log, bound: map<TopicPartition, nat>, rows: set<RowKey>) {
    forall p :: ValidAt(log, p) && p.offset < CommittedAt(bound, p.tp) ==> KeyOf(EventAt(log, p)) in rows
  }

  /** The batch is exactly the valid records polled since the last flush, in order. */
  ghost predicate BatchOk(log: Log, flushedTo: map<TopicPartition, nat>, position: map<TopicPartition, nat>,
                          batch: seq<Consumed>)
  {
    && Places(batch) == Between(log, flushedTo, position)
    && (forall c | c in batch :: Exact(log, c))
    && (forall i, j | 0 <= i < j < |batch| :: batch[i].tp == batch[j].tp ==> batch[i].offset < batch[j].offset)
  }

  ghost predicate JustPolledInvalid(log: Log, position: map<TopicPartition, nat>, p: Position) {
    p.tp in log && p.tp in position && position[p.tp] == p.offset + 1 && !ValidAt(log, p)
  }

  ghost predicate ThenOk(log: Log, position: map<TopicPartition, nat>, next: Then) {
    next.SkipInvalid? ==> JustPolledInvalid(log, position, next.place)
  }

  ghost predicate PhaseOk(log: Log, phase: Phase, position: map<TopicPartition, nat>, batch: seq<Consumed>,
                          rows: set<RowKey>)
  {
    match phase
    case Polling => true
    case Flushing(next) => batch != [] && ThenOk(log, position, next)
    case Committing(todo, next) =>
      KeysOf(batch) <= rows && todo != [] && (forall p | p in todo :: p in Places(batch)) && ThenOk(log, position, next)
    case CommittingInvalid(p) => batch == [] && JustPolledInvalid(log, position, p)
    case _ => false
  }

  /** What is still to be committed lies above what is committed. */
  ghost predicate FloorOk(log: Log, phase: Phase, committed: map<TopicPartition, nat>,
                          flushedTo: map<TopicPartition, nat>)
  {
    match phase
    case Committing(todo, _) =>
      DistinctPartitions(todo) && forall p | p in todo :: CommittedAt(committed, p.tp) <= p.offset
    case _ => forall tp | tp in log && tp in flushedTo :: CommittedAt(committed, tp) <= flushedTo[tp]
  }

  ghost predicate CountsOk(rows: set<RowKey>, rowsAtStart: set<RowKey>, inserted: nat, unreported: nat) {
    rowsAtStart <= rows && |rows - rowsAtStart| == inserted + unreported
  }

  predicate Running(phase: Phase) {
    !phase.Down? && !phase.Stopped?
  }

  ghost predicate DurableOk(log: Log, committed: map<TopicPartition, nat>, rows: set<RowKey>) {
    && rows <= ValidKeys(log)
    && StoredBelow(log, committed, rows)
    && (forall tp | tp in log :: CommittedAt(committed, tp) <= |log[tp]|)
  }

  ghost predicate Inv(log: Log, w: Writer) {
    && DurableOk(log, w.committed, w.rows)
    && (!w.phase.Down? ==> CountsOk(w.rows, w.rowsAtStart, w.inserted, w.unreported))
    && (w.phase.Stopped? ==> w.stop)
    && (w.discarded != [] && !w.phase.Down? ==> w.phase.Stopped?)
    && (Running(w.phase) ==>
          && RangesOk(log, w.committed, w.flushedTo, w.position)
          && StoredBelow(log, w.flushedTo, w.rows)
          && BatchOk(log, w.flushedTo, w.position, w.batch)
          && PhaseOk(log, w.phase, w.position, w.batch, w.rows)
          && FloorOk(log, w.phase, w.committed, w.flushedTo))
  }

  // ---- small facts ----

  lemma ValidKey(log: Log, p: Position)
    requires ValidAt(log, p)
    ensures KeyOf(EventAt(log, p)) in ValidKeys(log)
  {
    assert log[p.tp][p.offset].Valid?;
  }

  lemma BatchKeysValid(log: Log, flushedTo: map<TopicPartition, nat>, position: map<TopicPartition, nat>,
                       batch: seq<Consumed>)
    requires BatchOk(log, flushedTo, position, batch)
    ensures KeysOf(batch) <= ValidKeys(log)
  {
    forall c | c in batch ensures KeyOf(c.event) in ValidKeys(log) {
      ValidKey(log, c.Place());
    }
  }

  lemma InBatch(log: Log, flushedTo: map<TopicPartition, nat>, position: map<TopicPartition, nat>, batch: seq<Consumed>,
                p: Position)
    requires BatchOk(log, flushedTo, position, batch)
    requires ValidAt(log, p) && p.tp in flushedTo && p.tp in position && flushedTo[p.tp] <= p.offset < position[p.tp]
    ensures KeyOf(EventAt(log, p)) in KeysOf(batch)
  {
    assert Position(p.tp, p.offset) == p;
    assert p in Between(log, flushedTo, position);
    var c :| c in batch && c.Place() == p;
  }

  /** Once the batch is stored, everything polled is. */
  lemma StoredUpToPosition(log: Log, committed: map<TopicPartition, nat>, flushedTo: map<TopicPartition, nat>,
                           position: map<TopicPartition, nat>, batch: seq<Consumed>, rows: set<RowKey>)
    requires RangesOk(log, committed, flushedTo, position) && StoredBelow(log, flushedTo, rows)
    requires BatchOk(log, flushedTo, position, batch) && KeysOf(batch) <= rows
    ensures StoredBelow(log, position, rows)
  {
    forall p | ValidAt(log, p) && p.offset < CommittedAt(position, p.tp) ensures KeyOf(EventAt(log, p)) in rows {
      if CommittedAt(flushedTo, p.tp) <= p.offset {
        InBatch(log, flushedTo, position, batch, p);
      }
    }
  }

  lemma EmptyBatchOk(log: Log, position: map<TopicPartition, nat>)
    ensures BatchOk(log, position, position, [])
  {
  }

  lemma CommittedBelowPosition(log: Log, committed: map<TopicPartition, nat>, flushedTo: map<TopicPartition, nat>,
                               position: map<TopicPartition, nat>, phase: Phase)
    requires RangesOk(log, committed, flushedTo, position) && !phase.Committing?
    ensures FloorOk(log, phase, committed, position)
  {
  }

  lemma {:induction false} OthersKeepFloor(todo: seq<Position>, committed: map<TopicPartition, nat>)
    requires todo != [] && DistinctPartitions(todo) && forall p | p in todo :: CommittedAt(committed, p.tp) <= p.offset
    ensures DistinctPartitions(todo[1..])
    ensures forall p | p in todo[1..] :: CommittedAt(CommitPlace(committed, todo[0]), p.tp) <= p.offset
  {
    forall p | p in todo[1..] ensures p.tp != todo[0].tp {
      EntryIsLookup(todo[1..], p);
    }
  }

  lemma AppendKeepsBatch(log: Log, flushedTo: map<TopicPartition, nat>, position: map<TopicPartition, nat>,
                         batch: seq<Consumed>, c: Consumed)
    requires BatchOk(log, flushedTo, position, batch) && Exact(log, c)
    requires c.tp in flushedTo && c.tp in position && flushedTo[c.tp] <= position[c.tp] == c.offset
    ensures BatchOk(log, flushedTo, position[c.tp := c.offset + 1], batch + [c])
  {
    PlacesOfAppend(batch, [c]);
    PlacesOfOne(c);
    var moved := position[c.tp := c.offset + 1];
    forall p ensures p in Between(log, flushedTo, moved) <==> p in Between(log, flushedTo, position) || p == c.Place() {
      assert ValidAt(log, Position(p.tp, p.offset)) == ValidAt(log, p);
    }
    forall i | 0 <= i < |batch| && batch[i].tp == c.tp ensures batch[i].offset < c.offset {
      assert batch[i] in batch && batch[i].Place() in Places(batch);
    }
  }

  lemma InvalidKeepsBatch(log: Log, flushedTo: map<TopicPartition, nat>, position: map<TopicPartition, nat>,
                          batch: seq<Consumed>, p: Position)
    requires BatchOk(log, flushedTo, position, batch)
    requires p.tp in position && position[p.tp] == p.offset && !ValidAt(log, p)
    ensures BatchOk(log, flushedTo, position[p.tp := p.offset + 1], batch)
  {
    var moved := position[p.tp := p.offset + 1];
    assert Position(p.tp, p.offset) == p;
    assert Between(log, flushedTo, moved) == Between(log, flushedTo, position);
  }

  /** Committing a record of a stored batch, or the malformed record just polled, covers only stored records. */
  lemma CommitKeepsDurable(log: Log, w: Writer, p: Position)
    requires Inv(log, w) && Running(w.phase) && KeysOf(w.batch) <= w.rows
    requires p in Places(w.batch) || JustPolledInvalid(log, w.position, p)
    ensures var committed := CommitPlace(w.committed, p);
      && DurableOk(log, committed, w.rows) && RangesOk(log, committed, w.flushedTo, w.position)
      && CommittedAt(w.committed, p.tp) <= w.position[p.tp]
  {
    StoredUpToPosition(log, w.committed, w.flushedTo, w.position, w.batch, w.rows);
    assert p.tp in log && p.offset < w.position[p.tp] by {
      if p in Places(w.batch) {
        assert p in Between(log, w.flushedTo, w.position);
      }
    }
  }

  lemma RowsGrow(rows: set<RowKey>, keys: set<RowKey>, rowsAtStart: set<RowKey>, inserted: nat, unreported: nat)
    requires CountsOk(rows, rowsAtStart, inserted, unreported)
    ensures CountsOk(rows + keys, rowsAtStart, inserted + |keys - rows|, unreported)
    ensures CountsOk(rows + keys, rowsAtStart, inserted, unreported + |keys - rows|)
  {
    assert (rows + keys) - rowsAtStart == (rows - rowsAtStart) + (keys - rows);
  }

  // ---- the steps keep the invariant ----

  lemma StartKeeps(log: Log, w: Writer, now: int)
    requires Inv(log, w)
    ensures Inv(log, Started(log, w, now))
  {
    if w.phase.Down? {
      EmptyBatchOk(log, Started(log, w, now).position);
      assert w.rows - w.rows == {};
    }
  }

  lemma MessageKeeps(cfg: Config, log: Log, w: Writer, tp: TopicPartition, elapsed: nat)
    requires Inv(log, w) && w.phase.Polling? && tp in log && tp in w.position && w.position[tp] < |log[tp]|
    ensures Inv(log, Polled(cfg, log, w, Message(tp), elapsed))
  {
    hide DurableOk, StoredBelow, BatchOk, CountsOk, ShouldFlush, PollTimeout;
    var p := Position(tp, w.position[tp]);
    match log[p.tp][p.offset]
    case Valid(e) => AppendKeepsBatch(log, w.flushedTo, w.position, w.batch, Consumed(e, p.tp, p.offset));
    case Malformed => InvalidKeepsBatch(log, w.flushedTo, w.position, w.batch, p);
  }

  lemma PollKeeps(cfg: Config, log: Log, w: Writer, result: PollResult, elapsed: nat)
    requires Inv(log, w)
    ensures Inv(log, Polled(cfg, log, w, result, elapsed))
  {
    hide DurableOk, StoredBelow, BatchOk, CountsOk, RangesOk, PollTimeout, Appended, MetInvalid;
    if result.Message? && result.tp in log && w.phase.Polling? && result.tp in w.position
      && w.position[result.tp] < |log[result.tp]| {
      MessageKeeps(cfg, log, w, result.tp, elapsed);
    }
  }

  lemma CommitListFacts(batch: seq<Consumed>)
    requires batch != []
    ensures CommitList(batch) != [] && DistinctPartitions(CommitList(batch))
    ensures forall p | p in CommitList(batch) :: p in Places(batch)
  {
    hide CommitList, Places;
    CommitListIsGreatest(batch, batch[0].tp);
    forall p | p in CommitList(batch) ensures p in Places(batch) {
      CommitListIsFromBatch(batch, p);
    }
  }

  lemma StoringKeepsDurable(log: Log, committed: map<TopicPartition, nat>, rows: set<RowKey>, keys: set<RowKey>)
    requires DurableOk(log, committed, rows) && keys <= ValidKeys(log)
    ensures DurableOk(log, committed, rows + keys)
  {
  }

  lemma StoringKeepsBelow(log: Log, bound: map<TopicPartition, nat>, rows: set<RowKey>, keys: set<RowKey>)
    requires StoredBelow(log, bound, rows)
    ensures StoredBelow(log, bound, rows + keys)
  {
  }

  lemma BatchAboveFloor(log: Log, w: Writer, p: Position)
    requires RangesOk(log, w.committed, w.flushedTo, w.position) && BatchOk(log, w.flushedTo, w.position, w.batch)
    requires FloorOk(log, w.phase, w.committed, w.flushedTo) && !w.phase.Committing? && p in Places(w.batch)
    ensures CommittedAt(w.committed, p.tp) <= p.offset
  {
    assert p in Between(log, w.flushedTo, w.position);
  }

  lemma FlushKeeps(log: Log, w: Writer, answer: InsertAnswer, pause: nat)
    requires Inv(log, w)
    ensures Inv(log, FlushTurn(w, answer, pause))
  {
    hide DurableOk, StoredBelow, RangesOk, BatchOk, CountsOk, CommitList, KeysOf, Places;
    if w.phase.Flushing? && !w.stop {
      RowsGrow(w.rows, KeysOf(w.batch), w.rowsAtStart, w.inserted, w.unreported);
      BatchKeysValid(log, w.flushedTo, w.position, w.batch);
      StoringKeepsDurable(log, w.committed, w.rows, KeysOf(w.batch));
      StoringKeepsBelow(log, w.flushedTo, w.rows, KeysOf(w.batch));
      CommitListFacts(w.batch);
      forall p | p in CommitList(w.batch) ensures CommittedAt(w.committed, p.tp) <= p.offset {
        BatchAboveFloor(log, w, p);
      }
    }
  }

  lemma LastCommitKeeps(log: Log, w: Writer, p: Position)
    requires Inv(log, w) && Running(w.phase) && KeysOf(w.batch) <= w.rows
    requires p in Places(w.batch) || JustPolledInvalid(log, w.position, p)
    ensures RangesOk(log, CommitPlace(w.committed, p), w.position, w.position)
    ensures StoredBelow(log, w.position, w.rows) && BatchOk(log, w.position, w.position, [])
  {
    CommitKeepsDurable(log, w, p);
    StoredUpToPosition(log, w.committed, w.flushedTo, w.position, w.batch, w.rows);
    EmptyBatchOk(log, w.position);
  }

  lemma BatchCommitKeeps(log: Log, w: Writer, commit: CommitAnswer)
    requires Inv(log, w) && w.phase.Committing?
    ensures Inv(log, Committed(w, commit))
  {
    hide DurableOk, StoredBelow, RangesOk, BatchOk, CountsOk, KeysOf, Places, CommitPlace, JustPolledInvalid,
      DistinctPartitions;
    var todo := w.phase.todo;
    assert todo[0] in Places(w.batch) && KeysOf(w.batch) <= w.rows;
    CommitKeepsDurable(log, w, todo[0]);
    if commit.Done? && |todo| > 1 {
      OthersKeepFloor(todo, w.committed);
    } else if commit.Done? {
      LastCommitKeeps(log, w, todo[0]);
      CommittedBelowPosition(log, CommitPlace(w.committed, todo[0]), w.position, w.position, Polling);
    }
  }

  lemma InvalidCommitKeeps(log: Log, w: Writer, commit: CommitAnswer)
    requires Inv(log, w) && w.phase.CommittingInvalid?
    ensures Inv(log, Committed(w, commit))
  {
    assert KeysOf([]) == {};
    hide DurableOk, StoredBelow, RangesOk, BatchOk, CountsOk, KeysOf, Places, CommitPlace, JustPolledInvalid;
    CommitKeepsDurable(log, w, w.phase.place);
    LastCommitKeeps(log, w, w.phase.place);
    CommittedBelowPosition(log, CommitPlace(w.committed, w.phase.place), w.position, w.position, Polling);
  }

  lemma StepKeeps(cfg: Config, log: Log, w: Writer, step: Step)
    requires Inv(log, w)
    ensures Inv(log, Step1(cfg, log, w, step))
  {
    hide DurableOk, RangesOk, StoredBelow, BatchOk, CountsOk, PhaseOk, FloorOk;
    match step
    case Start(now) => StartKeeps(log, w, now);
    case Crash =>
    case RequestStop =>
    case Poll(result, elapsed) => PollKeeps(cfg, log, w, result, elapsed);
    case ExitLoop =>
    case Insert(answer, pause) => FlushKeeps(log, w, answer, pause);
    case CommitNext(commit) =>
      if w.phase.Committing? {
        BatchCommitKeeps(log, w, commit);
      } else if w.phase.CommittingInvalid? {
        InvalidCommitKeeps(log, w, commit);
      }
  }

  lemma {:induction false} RunKeeps(cfg: Config, log: Log, steps: seq<Step>)
    ensures Inv(log, Run(cfg, log, FRESH, steps))
  {
    if steps == [] {
      assert forall p: Position :: CommittedAt(map[], p.tp) == 0;
    } else {
      RunKeeps(cfg, log, steps[..|steps| - 1]);
      StepKeeps(cfg, log, Run(cfg, log, FRESH, steps[..|steps| - 1]), steps[|steps| - 1]);
    }
  }

  lemma ReachableKeeps(cfg: Config, log: Log, w: Writer)
    requires Reachable(cfg, log, w)
    ensures Inv(log, w)
  {
    var steps :| w == Run(cfg, log, FRESH, steps);
    RunKeeps(cfg, log, steps);
  }

  // ---- the guarantees ----

  /** Commit safety with poison records: in every reachable state, every offset below a partition's commit
      is a malformed record or a stored one, and only valid records' keys are ever stored. */
  lemma CommitSafety(cfg: Config, log: Log, w: Writer, p: Position)
    requires Reachable(cfg, log, w) && p.tp in log && p.offset < CommittedAt(w.committed, p.tp)
    ensures p.offset < |log[p.tp]| && (log[p.tp][p.offset].Malformed? || KeyOf(EventAt(log, p)) in w.rows)
    ensures w.rows <= ValidKeys(log)
  {
    ReachableKeeps(cfg, log, w);
    hide RangesOk, BatchOk, CountsOk, PhaseOk, FloorOk;
    assert ValidAt(log, p) || !ValidAt(log, p);
  }

  /** The batch in memory is exactly the valid records polled since the last flush. */
  lemma BatchIsWhatWasPolled(cfg: Config, log: Log, w: Writer, p: Position)
    requires Reachable(cfg, log, w) && Running(w.phase) && p.tp in log
    ensures p.tp in w.flushedTo && p.tp in w.position
    ensures p in Places(w.batch) <==> ValidAt(log, p) && w.flushedTo[p.tp] <= p.offset < w.position[p.tp]
  {
    ReachableKeeps(cfg, log, w);
    hide DurableOk, CountsOk, PhaseOk, StoredBelow;
    assert Position(p.tp, p.offset) == p;
    assert p in Places(w.batch) <==> p in Between(log, w.flushedTo, w.position);
  }

  ghost predicate Drained(log: Log, w: Writer) {
    w.phase.Polling? && w.batch == [] && forall tp | tp in log :: tp in w.position && w.position[tp] == |log[tp]|
  }

  /** Exactly-once effect: whatever happened on the way, once the log is drained and the batch is empty the
      table holds each valid record's key and nothing else. */
  lemma ExactlyOnceEffect(cfg: Config, log: Log, w: Writer)
    requires Reachable(cfg, log, w) && Drained(log, w)
    ensures w.rows == ValidKeys(log)
  {
    ReachableKeeps(cfg, log, w);
    assert KeysOf([]) == {};
    StoredUpToPosition(log, w.committed, w.flushedTo, w.position, w.batch, w.rows);
    forall k | k in ValidKeys(log) ensures k in w.rows {
      var tp, o: nat :| tp in log && o < |log[tp]| && log[tp][o].Valid? && KeyOf(log[tp][o].event) == k;
      var p := Position(tp, o);
      assert ValidAt(log, p) && KeyOf(EventAt(log, p)) == k;
    }
  }

  /** The counter reports the rows this process added, short only of those whose insert seemed to fail. */
  lemma InsertedNeverOvercounts(cfg: Config, log: Log, w: Writer)
    requires Reachable(cfg, log, w) && !w.phase.Down?
    ensures w.rowsAtStart <= w.rows && w.inserted + w.unreported == |w.rows - w.rowsAtStart|
  {
    hide DurableOk, RangesOk, StoredBelow, BatchOk, PhaseOk, FloorOk;
    ReachableKeeps(cfg, log, w);
  }

  /** An insert that took effect although it raised. */
  predicate SeemsToFail(step: Step) {
    step.Insert? && step.answer.Lost?
  }

  lemma {:induction false} NothingUnreported(cfg: Config, log: Log, steps: seq<Step>)
    requires forall i | 0 <= i < |steps| :: !SeemsToFail(steps[i])
    ensures Run(cfg, log, FRESH, steps).unreported == 0
  {
    if steps != [] {
      NothingUnreported(cfg, log, steps[..|steps| - 1]);
      assert !SeemsToFail(steps[|steps| - 1]);
      OnlyLostIsUnreported(cfg, log, Run(cfg, log, FRESH, steps[..|steps| - 1]), steps[|steps| - 1]);
      hide Step1;
    }
  }

  lemma OnlyLostIsUnreported(cfg: Config, log: Log, w: Writer, step: Step)
    requires !SeemsToFail(step) && w.unreported == 0
    ensures Step1(cfg, log, w, step).unreported == 0
  {
  }

  /** Without such an insert the counter is exact, over any failures, crashes and restarts. */
  lemma InsertedIsExact(cfg: Config, log: Log, steps: seq<Step>)
    requires forall i | 0 <= i < |steps| :: !SeemsToFail(steps[i])
    requires !Run(cfg, log, FRESH, steps).phase.Down?
    ensures var w := Run(cfg, log, FRESH, steps); w.inserted == |w.rows - w.rowsAtStart|
  {
    NothingUnreported(cfg, log, steps);
    hide Run;
    assert Reachable(cfg, log, Run(cfg, log, FRESH, steps));
    InsertedNeverOvercounts(cfg, log, Run(cfg, log, FRESH, steps));
  }

  /** A batch thrown away unflushed means the writer was asked to stop. */
  lemma DiscardMeansStopped(cfg: Config, log: Log, w: Writer)
    requires Reachable(cfg, log, w) && !w.phase.Down? && w.discarded != []
    ensures w.phase.Stopped? && w.stop
  {
    hide DurableOk, RangesOk, StoredBelow, BatchOk, PhaseOk, CountsOk, FloorOk;
    ReachableKeeps(cfg, log, w);
  }

  /** A stopped writer polls, stores and commits nothing more until it is started again. */
  lemma {:induction false} StoppedIsFrozen(cfg: Config, log: Log, w: Writer, steps: seq<Step>)
    requires w.phase.Stopped? && w.stop && forall i | 0 <= i < |steps| :: !steps[i].Start?
    ensures var v := Run(cfg, log, w, steps);
      && (v.phase.Stopped? || v.phase.Down?)
      && v.committed == w.committed && v.rows == w.rows && v.position == w.position && v.stop
  {
    if steps != [] {
      StoppedIsFrozen(cfg, log, w, steps[..|steps| - 1]);
    }
  }

  /** Commits never move a partition back. */
  lemma CommitsNeverRegress(cfg: Config, log: Log, w: Writer, step: Step, tp: TopicPartition)
    requires Reachable(cfg, log, w) && tp in log
    ensures CommittedAt(w.committed, tp) <= CommittedAt(Step1(cfg, log, w, step).committed, tp)
  {
    hide DurableOk, StoredBelow, BatchOk, CountsOk, Reachable, KeysOf, Appended;
    ReachableKeeps(cfg, log, w);
    hide Started, Polled, LeftLoop, FlushTurn;
    if !step.CommitNext? {
      OnlyCommitsCommit(cfg, log, w, step);
    }
  }

  lemma OnlyCommitsCommit(cfg: Config, log: Log, w: Writer, step: Step)
    requires !step.CommitNext?
    ensures Step1(cfg, log, w, step).committed == w.committed
  {
    hide KeysOf;
  }

  // ---- batch bounds ----

  ghost predicate BoundsOk(cfg: Config, w: Writer) {
    && |w.batch| <= cfg.maxSize && (w.phase.CommittingInvalid? ==> w.batch == [])
    && (w.phase.Polling? && w.batch != [] ==> |w.batch| < cfg.maxSize && 0 <= w.now - w.batchStarted <= cfg.maxLatency)
  }

  /** The flush begins in this step. */
  predicate FlushStarts(w: Writer, v: Writer) {
    !w.phase.Flushing? && v.phase.Flushing?
  }

  lemma PollKeepsBounds(cfg: Config, log: Log, w: Writer, result: PollResult, elapsed: nat)
    requires 0 < cfg.maxSize && BoundsOk(cfg, w)
    ensures var v := Polled(cfg, log, w, result, elapsed);
      && BoundsOk(cfg, v)
      && (FlushStarts(w, v) ==>
            && 0 < |v.batch| <= cfg.maxSize && v.now - v.batchStarted <= cfg.maxLatency
            && (v.phase.then_ == Resume ==> |v.batch| == cfg.maxSize || v.now - v.batchStarted == cfg.maxLatency))
  {
  }

  lemma StepKeepsBounds(cfg: Config, log: Log, w: Writer, step: Step)
    requires 0 < cfg.maxSize && BoundsOk(cfg, w)
    ensures var v := Step1(cfg, log, w, step);
      BoundsOk(cfg, v) && (FlushStarts(w, v) ==> step.Poll? && v == Polled(cfg, log, w, step.result, step.elapsed))
  {
    if step.Poll? {
      PollKeepsBounds(cfg, log, w, step.result, step.elapsed);
    }
    hide Polled;
  }

  lemma {:induction false} RunKeepsBounds(cfg: Config, log: Log, steps: seq<Step>)
    requires 0 < cfg.maxSize
    ensures BoundsOk(cfg, Run(cfg, log, FRESH, steps))
  {
    if steps != [] {
      RunKeepsBounds(cfg, log, steps[..|steps| - 1]);
      StepKeepsBounds(cfg, log, Run(cfg, log, FRESH, steps[..|steps| - 1]), steps[|steps| - 1]);
    }
  }

  /** With a positive size limit and time passing only inside polls, an open batch stays below the size
      limit and never gets older than the latency limit, whatever mix of idle polls, valid and malformed
      records and broker errors arrives; a flush starts with at most `maxSize` records no older than
      `maxLatency`, and it starts at once when the limit is reached. */
  lemma BatchBounds(cfg: Config, log: Log, w: Writer, step: Step)
    requires 0 < cfg.maxSize && Reachable(cfg, log, w)
    ensures |w.batch| <= cfg.maxSize
    ensures w.phase.Polling? && w.batch != [] ==> |w.batch| < cfg.maxSize && w.now - w.batchStarted <= cfg.maxLatency
    ensures FlushStarts(w, Step1(cfg, log, w, step)) ==>
              var v := Step1(cfg, log, w, step);
              && 0 < |v.batch| <= cfg.maxSize && v.now - v.batchStarted <= cfg.maxLatency
              && (v.phase.then_ == Resume ==> |v.batch| == cfg.maxSize || v.now - v.batchStarted == cfg.maxLatency)
  {
    var steps :| w == Run(cfg, log, FRESH, steps);
    RunKeepsBounds(cfg, log, steps);
    StepKeepsBounds(cfg, log, w, step);
    if step.Poll? {
      PollKeepsBounds(cfg, log, w, step.result, step.elapsed);
    }
    hide Step1, Polled;
  }
}
