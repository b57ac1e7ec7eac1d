/** What the engine guarantees over every run, including crashes, restarts, Redis retries and failed
    commits. */
module EngineGuarantees {
  import opened Events
  import opened Acknowledgements
  import opened EngineRuns

  /** A state some run of a fresh deployment ends in. */
  ghost predicate Reachable(log: Log, base: map<TopicPartition, nat>, s: Engine) {
    Fits(log, base) && exists steps :: s == Run(log, Deployed(base), steps)
  }

  lemma ReachableKeeps(log: Log, base: map<TopicPartition, nat>, s: Engine)
    requires OneHome(log) && Reachable(log, base, s)
    ensures Inv(log, s)
  {
    var steps :| s == Run(log, Deployed(base), steps);
    RunKeeps(log, base, steps);
  }

  // ---- commit safety ----

  /** Every offset from the first one tracked up to the cursor, and up to the offset the broker holds, is
      a record that parsed, was written to Redis and was published. */
  lemma CommitSafety(log: Log, base: map<TopicPartition, nat>, s: Engine, tp: TopicPartition, o: nat)
    requires OneHome(log) && Reachable(log, base, s) && s.up
    requires tp in s.first && s.first[tp] <= o && tp in s.bridge.next
    requires o < s.bridge.next[tp] || (tp in s.committed && o < s.committed[tp])
    ensures ValidAt(log, Position(tp, o)) && Effected(log, Position(tp, o), s.published, s.snapshots)
  {
    ReachableKeeps(log, base, s);
    hide DurableOk, FlightOk, PolledOk, AcksOk, CommitsOk, LedgerOk;
    assert Position(tp, o) in s.done by { hide EffectsOk, DoneOk; }
  }

  // ---- conservation: each polled record is in exactly one place ----

  datatype Whereabouts = BelowCursor | Pending | Acknowledged | Processing | Queued | AtThread

  ghost predicate IsAt(s: Engine, p: Position, w: Whereabouts) {
    match w
    case BelowCursor => p.tp in s.bridge.next && p.offset < s.bridge.next[p.tp]
    case Pending => p.tp in s.bridge.pending && p.offset in s.bridge.pending[p.tp]
    case Acknowledged => p in Places(s.bridge.acks)
    case Processing => p in Places(TaskItems(s.task))
    case Queued => p in Places(s.bridge.queue)
    case AtThread => p in Places(ThreadItems(s.thread))
  }

  lemma NothingDone(log: Log, position: map<TopicPartition, nat>, flight: seq<Consumed>)
    ensures DoneOk(log, position, flight, {})
  {
  }

  lemma EmptyFlight(log: Log, position: map<TopicPartition, nat>, open: set<Position>)
    requires FlightOk(log, position, [], open)
    ensures open == Places([])
  {
  }

  lemma {:induction false} OpenIsFlight(log: Log, position: map<TopicPartition, nat>, flight: seq<Consumed>,
                                        open: set<Position>)
    requires FlightOk(log, position, flight, open)
    ensures open == Places(flight)
  {
    hide FlightOk, DoneOk, Genuine, Places;
    if flight == [] {
      EmptyFlight(log, position, open);
    } else {
      var c, rest := flight[0], flight[1..];
      assert flight == [c] + rest;
      NothingDone(log, position, flight);
      FlightLands(log, position, c, rest, open, {});
      OpenIsFlight(log, position, rest, open - {c.Place()});
      PlacesOfAppend([c], rest);
      PlacesOfOne(c);
    }
  }

  lemma FlightPartsAreDisjoint(log: Log, position: map<TopicPartition, nat>, a: seq<Consumed>, b: seq<Consumed>,
                               open: set<Position>)
    requires FlightOk(log, position, a + b, open)
    ensures Places(a) !! Places(b)
  {
    forall c, d | c in a && d in b ensures c.Place() != d.Place() {
      var i :| 0 <= i < |a| && a[i] == c;
      var j :| 0 <= j < |b| && b[j] == d;
      assert (a + b)[i] == c && (a + b)[|a| + j] == d;
    }
  }

  lemma FlightIsOutsideDone(log: Log, s: Engine, p: Position)
    requires DoneOk(log, s.position, Flight(s), s.done) && p in Places(Flight(s))
    ensures p !in s.done
  {
    var c :| c in Flight(s) && c.Place() == p;
  }

  lemma DoneIsInOneLedger(s: Engine, p: Position, w1: Whereabouts, w2: Whereabouts)
    requires LedgerOk(s.bridge.next, s.bridge.pending, s.bridge.acks, s.done)
      && AcksOk(s.bridge.pending, s.bridge.acks, s.done)
    requires (w1.BelowCursor? || w1.Pending? || w1.Acknowledged?)
      && (w2.BelowCursor? || w2.Pending? || w2.Acknowledged?)
    requires IsAt(s, p, w1) && IsAt(s, p, w2)
    ensures w1 == w2
  {
    assert Position(p.tp, p.offset) == p;
    if p in Places(s.bridge.acks) {
      var c :| c in s.bridge.acks && c.Place() == p;
    }
  }

  lemma FlightIsInOnePlace(log: Log, s: Engine, p: Position)
    requires FlightOk(log, s.position, Flight(s), s.open)
    ensures p in s.open <==> IsAt(s, p, Processing) || IsAt(s, p, Queued) || IsAt(s, p, AtThread)
    ensures !(IsAt(s, p, Processing) && IsAt(s, p, Queued)) && !(IsAt(s, p, Processing) && IsAt(s, p, AtThread))
    ensures !(IsAt(s, p, Queued) && IsAt(s, p, AtThread))
    ensures p in s.open <==> p in Places(Flight(s))
  {
    hide FlightOk, Places;
    var a, b, c := TaskItems(s.task), s.bridge.queue, ThreadItems(s.thread);
    assert Flight(s) == a + (b + c) && Flight(s) == (a + b) + c;
    OpenIsFlight(log, s.position, Flight(s), s.open);
    PlacesOfAppend(a, b + c);
    PlacesOfAppend(b, c);
    PlacesOfAppend(a, b);
    FlightPartsAreDisjoint(log, s.position, a, b + c, s.open);
    FlightPartsAreDisjoint(log, s.position, a + b, c, s.open);
  }

  lemma DoneIsInSomeLedger(log: Log, s: Engine, p: Position)
    requires ValidAt(log, p) && p.tp in s.runStart && p.tp in s.position
      && s.runStart[p.tp] <= p.offset < s.position[p.tp]
    requires CursorsOk(log, s.runStart, s.position, s.first, s.bridge.next, s.done)
    requires LedgerOk(s.bridge.next, s.bridge.pending, s.bridge.acks, s.done)
      && AcksOk(s.bridge.pending, s.bridge.acks, s.done)
    ensures p in s.done <==> IsAt(s, p, BelowCursor) || IsAt(s, p, Pending) || IsAt(s, p, Acknowledged)
  {
    assert Position(p.tp, p.offset) == p;
    if p in Places(s.bridge.acks) {
      var c :| c in s.bridge.acks && c.Place() == p;
    }
  }

  /** No acknowledged or in-flight record is lost or duplicated: each valid record this process polled is in
      exactly one of the committed prefix, the pending map, the acknowledgement queue, the processing
      task, the hand-off queue and the polling thread (where an abandoned hand-off stays). */
  lemma ExactlyOnePlace(log: Log, base: map<TopicPartition, nat>, s: Engine, p: Position)
    requires OneHome(log) && Reachable(log, base, s) && s.up
    requires ValidAt(log, p) && p.tp in s.runStart && p.tp in s.position
      && s.runStart[p.tp] <= p.offset < s.position[p.tp]
    ensures exists w :: IsAt(s, p, w)
    ensures forall w1, w2 | IsAt(s, p, w1) && IsAt(s, p, w2) :: w1 == w2
  {
    ReachableKeeps(log, base, s);
    hide Inv, DurableOk, RangesOk, FlightOk, EffectsOk, CursorsOk, AcksOk, CommitsOk, AheadOk, LedgerOk, Flight;
    assert p in s.open || p in s.done;
    hide PolledOk;
    FlightIsInOnePlace(log, s, p);
    DoneIsInSomeLedger(log, s, p);
    if p in Places(Flight(s)) {
      FlightIsOutsideDone(log, s, p);
    }
    hide DoneOk;
    assert exists w :: IsAt(s, p, w) by {
      if p in s.done {
        assert IsAt(s, p, BelowCursor) || IsAt(s, p, Pending) || IsAt(s, p, Acknowledged);
      } else {
        assert IsAt(s, p, Processing) || IsAt(s, p, Queued) || IsAt(s, p, AtThread);
      }
    }
    forall w1, w2 | IsAt(s, p, w1) && IsAt(s, p, w2) ensures w1 == w2 {
      hide IsAt;
      if p in s.done {
        DoneIsInOneLedger(s, p, w1, w2);
      }
    }
  }

  // ---- how far commits can get ----

  function FirstMalformed(records: seq<Record>, start: nat): (o: nat)
    requires start <= |records|
    ensures start <= o <= |records|
    ensures forall i | start <= i < o :: records[i].Valid?
    ensures o < |records| ==> records[o].Malformed?
    decreases |records| - start
  {
    if start < |records| && records[start].Valid? then FirstMalformed(records, start + 1) else start
  }

  /** The polling thread has read the whole of `tp` and nothing of it is still in flight. */
  ghost predicate CaughtUp(log: Log, s: Engine, tp: TopicPartition) {
    && s.up && tp in log && tp in s.position && s.position[tp] == |log[tp]|
    && (forall c | c in Flight(s) :: c.tp != tp)
  }

  lemma CaughtUpIsDone(log: Log, s: Engine, p: Position)
    requires CaughtUp(log, s, p.tp) && ValidAt(log, p) && p.tp in s.runStart && s.runStart[p.tp] <= p.offset
    requires FlightOk(log, s.position, Flight(s), s.open) && PolledOk(log, s.runStart, s.position, s.open, s.done)
    ensures p in s.done
  {
    OpenIsFlight(log, s.position, Flight(s), s.open);
    forall c | c in Flight(s) ensures c.Place() != p {
    }
    assert p in s.open || p in s.done;
  }

  /** Tracking began at a valid record, and the broker holds at least a cursor that has moved from there. */
  ghost predicate BrokerOk(log: Log, s: Engine) {
    s.up ==> forall tp {:trigger tp in s.first} | tp in s.first ::
      && ValidAt(log, Position(tp, s.first[tp])) && tp in s.bridge.next
      && (s.first[tp] < s.bridge.next[tp] ==> tp in s.committed && s.bridge.next[tp] <= s.committed[tp])
  }

  lemma ProposedMoves(b: Bridge, tp: TopicPartition)
    requires tp in Proposed(b)
    ensures tp in b.next && b.next[tp] < Proposed(b)[tp]
  {
  }

  lemma DrainKeepsBroker(log: Log, s: Engine, commit: CommitAnswer)
    requires BrokerOk(log, s)
    ensures BrokerOk(log, DrainStep(s, commit))
  {
    forall tp | tp in Proposed(s.bridge) ensures tp in s.bridge.next && s.bridge.next[tp] < Proposed(s.bridge)[tp] {
      ProposedMoves(s.bridge, tp);
    }
    assert Drained(s.bridge, true).next == s.bridge.next + Proposed(s.bridge);
    assert Drained(s.bridge, false).next == s.bridge.next;
    hide Proposed, Drained, Covering;
  }

  lemma PollKeepsBroker(log: Log, s: Engine, tp: TopicPartition, now: int)
    requires BrokerOk(log, s) && (s.up ==> forall q | q in s.bridge.next :: q in s.first)
    ensures BrokerOk(log, Polled(log, s, tp, now))
  {
    var t := Polled(log, s, tp, now);
    if t != s {
      PollMoves(log, s, tp, now);
      PollTracked(log, s, tp, now);
      hide Polled;
    }
  }

  lemma NextIsTracked(log: Log, s: Engine)
    requires Inv(log, s) && s.up
    ensures forall tp | tp in s.bridge.next :: tp in s.first
  {
    hide FlightOk, DoneOk, EffectsOk, PolledOk, AcksOk, CommitsOk, AheadOk, LedgerOk, DurableOk, RangesOk;
  }

  predicate Tracks(step: Step) {
    step.Start? || step.Crash? || step.PollRecord? || step.Drain?
  }

  /** Only polling and draining touch the cursors, and only draining what the broker holds. */
  lemma OthersTrackNothing(log: Log, s: Engine, step: Step)
    requires !Tracks(step)
    ensures SameTracking(s, Step1(log, s, step))
  {
    hide Put, PutFailed, LeftLoop, Taken, AttemptBegun, Updated, PublishedStep, StoppedRetrying;
  }

  lemma StartKeepsBroker(log: Log, s: Engine, fallback: map<TopicPartition, nat>)
    requires BrokerOk(log, s)
    ensures BrokerOk(log, Started(log, s, fallback))
  {
  }

  lemma BrokerStep(log: Log, s: Engine, step: Step)
    requires BrokerOk(log, s) && Inv(log, s)
    ensures BrokerOk(log, Step1(log, s, step))
  {
    if s.up {
      NextIsTracked(log, s);
    }
    hide Inv;
    match step
    case Start(fallback) => StartKeepsBroker(log, s, fallback);
    case PollRecord(tp, now) => PollKeepsBroker(log, s, tp, now);
    case Drain(commit) => DrainKeepsBroker(log, s, commit);
    case _ =>
      if !step.Crash? {
        OthersTrackNothing(log, s, step);
        hide Step1;
      }
  }

  lemma {:induction false} RunKeepsBroker(log: Log, base: map<TopicPartition, nat>, steps: seq<Step>)
    requires OneHome(log) && Fits(log, base)
    ensures BrokerOk(log, Run(log, Deployed(base), steps))
  {
    if steps != [] {
      hide BrokerOk, Inv, Step1;
      RunKeepsBroker(log, base, steps[..|steps| - 1]);
      RunKeeps(log, base, steps[..|steps| - 1]);
      BrokerStep(log, Run(log, Deployed(base), steps[..|steps| - 1]), steps[|steps| - 1]);
    }
  }

  /** The cursor after a successful drain of a caught-up partition. */
  lemma CursorProgress(log: Log, s: Engine, tp: TopicPartition)
    requires Inv(log, s) && CaughtUp(log, s, tp) && (s.thread.Polling? || s.thread.Leaving?)
    requires tp in s.first && s.first[tp] <= |log[tp]|
    ensures tp in DrainStep(s, Accepted).bridge.next
    ensures DrainStep(s, Accepted).bridge.next[tp] == FirstMalformed(log[tp], s.first[tp])
  {
    var t := DrainStep(s, Accepted);
    DrainCoversFinished(s.bridge, s.done, tp);
    DrainIsExact(s.bridge, tp);
    var cursor, stop := t.bridge.next[tp], FirstMalformed(log[tp], s.first[tp]);
    hide DurableOk, EffectsOk, CommitsOk, AheadOk, AcksOk, Drained;
    assert Position(tp, stop) in s.done ==> ValidAt(log, Position(tp, stop));
    if cursor < stop {
      CaughtUpIsDone(log, s, Position(tp, cursor));
    }
  }

  /** What the broker holds of a partition consists of records that were finished. */
  lemma CommittedIsValid(log: Log, s: Engine, tp: TopicPartition)
    requires Inv(log, s) && s.up && tp in s.first && tp in s.committed && tp in log
    requires s.first[tp] < s.committed[tp]
    ensures s.committed[tp] <= |log[tp]|
    ensures forall o: nat | s.first[tp] <= o < s.committed[tp] :: ValidAt(log, Position(tp, o))
  {
    assert s.committed[tp] <= |log[tp]| by { hide ProcessOk; }
    hide FlightOk, EffectsOk, PolledOk, AcksOk, CommitsOk, LedgerOk, DurableOk, CursorsOk;
    forall o: nat | s.first[tp] <= o < s.committed[tp] ensures ValidAt(log, Position(tp, o)) {
      assert Position(tp, o) in s.done;
    }
  }

  /** Commit progress, exactly: once a partition is caught up, a successful drain brings its cursor, and what
      the broker holds, to the first malformed record after the first tracked one, and to the log's end only
      if there is none. */
  lemma CommitProgress(log: Log, base: map<TopicPartition, nat>, s: Engine, tp: TopicPartition)
    requires OneHome(log) && Reachable(log, base, s) && CaughtUp(log, s, tp) && (s.thread.Polling? || s.thread.Leaving?)
    requires tp in s.first
    ensures s.first[tp] <= |log[tp]|
    ensures var t := DrainStep(s, Accepted);
      && tp in t.bridge.next && t.bridge.next[tp] == FirstMalformed(log[tp], s.first[tp])
      && tp in t.committed && t.committed[tp] == FirstMalformed(log[tp], s.first[tp])
  {
    ReachableKeeps(log, base, s);
    var steps :| s == Run(log, Deployed(base), steps);
    RunKeepsBroker(log, base, steps);
    assert ValidAt(log, Position(tp, s.first[tp]));
    CursorProgress(log, s, tp);
    hide Inv, Run, Reachable;
    DrainKeepsBroker(log, s, Accepted);
    DrainKeeps(log, s, Accepted);
    DrainTracks(s, Accepted);
    hide CaughtUp, DrainStep;
    CommittedUpTo(log, DrainStep(s, Accepted), tp);
  }

  lemma DrainTracks(s: Engine, commit: CommitAnswer)
    ensures DrainStep(s, commit).up == s.up && DrainStep(s, commit).first == s.first
  {
  }

  lemma CommittedUpTo(log: Log, t: Engine, tp: TopicPartition)
    requires Inv(log, t) && BrokerOk(log, t) && t.up && tp in t.first && tp in log
    requires tp in t.bridge.next && t.bridge.next[tp] == FirstMalformed(log[tp], t.first[tp])
    ensures tp in t.committed && t.committed[tp] == FirstMalformed(log[tp], t.first[tp])
  {
    var stop := FirstMalformed(log[tp], t.first[tp]);
    assert ValidAt(log, Position(tp, t.first[tp])) && t.first[tp] < stop;
    hide Inv;
    CommittedIsValid(log, t, tp);
    assert stop < t.committed[tp] ==> ValidAt(log, Position(tp, stop));
  }

  // ---- commits only move forward ----

  /** Whatever the broker holds beyond the cursor, after a failed commit that landed, is proposed again. */
  lemma ProposesAtLeastCommitted(log: Log, s: Engine, tp: TopicPartition)
    requires Inv(log, s) && s.up && tp in s.committed && tp in Proposed(s.bridge)
    ensures s.committed[tp] <= Proposed(s.bridge)[tp]
  {
    ProposedMoves(s.bridge, tp);
    DrainCoversFinished(s.bridge, s.done, tp);
    DrainIsExact(s.bridge, tp);
    var cursor := Proposed(s.bridge)[tp];
    hide DurableOk, FlightOk, DoneOk, EffectsOk, PolledOk, AcksOk, Drained, Proposed;
    assert s.first[tp] <= cursor;
    assert cursor < s.committed[tp] ==> Position(tp, cursor) in s.done;
    assert Position(tp, cursor) in s.done ==> cursor in Acked(s.bridge, tp);
  }

  lemma CommitMovesOrStays(committed: map<TopicPartition, nat>, offsets: map<TopicPartition, nat>, answer: CommitAnswer,
                           tp: TopicPartition)
    requires tp in committed
    ensures var after := AfterCommit(committed, offsets, answer);
      tp in after && (after[tp] == committed[tp] || (tp in offsets && after[tp] == offsets[tp]))
  {
  }

  lemma DrainNeverRegresses(log: Log, s: Engine, commit: CommitAnswer, tp: TopicPartition)
    requires Inv(log, s) && tp in s.committed
    ensures tp in DrainStep(s, commit).committed && s.committed[tp] <= DrainStep(s, commit).committed[tp]
  {
    if s.up && tp in Proposed(s.bridge) {
      ProposesAtLeastCommitted(log, s, tp);
    }
    CommitMovesOrStays(s.committed, Proposed(s.bridge), commit, tp);
    hide Inv, Drained, Proposed, Covering, AfterCommit;
  }

  /** No step moves the committed offset of a partition back, whatever landed of a failed commit. */
  lemma CommitsNeverRegress(log: Log, base: map<TopicPartition, nat>, s: Engine, step: Step, tp: TopicPartition)
    requires OneHome(log) && Reachable(log, base, s) && tp in s.committed
    ensures tp in Step1(log, s, step).committed && s.committed[tp] <= Step1(log, s, step).committed[tp]
  {
    ReachableKeeps(log, base, s);
    hide Inv, Started, Polled, DrainStep, Reachable;
    if step.Drain? {
      DrainNeverRegresses(log, s, step.commit, tp);
    } else if !Tracks(step) {
      OthersTrackNothing(log, s, step);
      hide Step1;
    }
  }

  // ---- replay convergence ----

  /** The simple meaning of a partition: the last valid record of each symbol wins. */
  function Fold(records: seq<Record>): map<Symbol, SnapshotData> {
    if records == [] then map[]
    else
      var before := Fold(records[..|records| - 1]);
      match records[|records| - 1]
      case Malformed => before
      case Valid(e) => before[e.symbol := Timeless(SnapshotOf(e))]
  }

  /** The last record of symbol `y`. */
  function LastOf(records: seq<Record>, y: Symbol): Option<nat> {
    if records == [] then None
    else if records[|records| - 1].Valid? && records[|records| - 1].event.symbol == y then Some(|records| - 1)
    else LastOf(records[..|records| - 1], y)
  }

  lemma {:induction false} FoldIsLast(records: seq<Record>, y: Symbol)
    ensures var last := LastOf(records, y);
      && (y in Fold(records) <==> last.Some?)
      && (last.Some? ==>
            && last.value < |records| && records[last.value].Valid? && records[last.value].event.symbol == y
            && Fold(records)[y] == Timeless(SnapshotOf(records[last.value].event)))
      && (forall o | 0 <= o < |records| && records[o].Valid? && records[o].event.symbol == y ::
           last.Some? && o <= last.value)
  {
    if records != [] {
      FoldIsLast(records[..|records| - 1], y);
    }
  }

  /** Redis holds, for the symbols of `tp`, exactly the partition's fold (apart from timestamps), and every
      valid record of `tp` has been published. */
  ghost predicate ConvergedOn(log: Log, s: Engine, tp: TopicPartition)
    requires tp in log
  {
    && (forall y | y in Fold(log[tp]) :: y in s.snapshots && Timeless(s.snapshots[y].data) == Fold(log[tp])[y])
    && (forall p | ValidAt(log, p) && p.tp == tp :: p in s.published)
  }

  /** From where on this group answers for the partition: where its commits began to cover it, or where the
      process began to read it if nothing was ever committed. */
  function ReadFrom(s: Engine, tp: TopicPartition): nat {
    if tp in s.since then s.since[tp] else if tp in s.runStart then s.runStart[tp] else 0
  }

  /** `ConvergedOn` for the records from offset `from` on. */
  ghost predicate ConvergedFrom(log: Log, s: Engine, tp: TopicPartition, from: nat)
    requires tp in log
  {
    && (forall p | ValidAt(log, p) && p.tp == tp && from <= p.offset :: p in s.published)
    && (forall y {:trigger LastOf(log[tp], y)} | LastOf(log[tp], y).Some? && from <= LastOf(log[tp], y).value ::
          y in s.snapshots && y in Fold(log[tp]) && Timeless(s.snapshots[y].data) == Fold(log[tp])[y])
  }

  lemma AllEffected(log: Log, base: map<TopicPartition, nat>, s: Engine, p: Position)
    requires OneHome(log) && Reachable(log, base, s) && CaughtUp(log, s, p.tp) && ValidAt(log, p)
      && ReadFrom(s, p.tp) <= p.offset
    ensures Effected(log, p, s.published, s.snapshots)
  {
    ReachableKeeps(log, base, s);
    hide CursorsOk, AcksOk, AheadOk, LedgerOk;
    assert p.tp in s.runStart;
    if s.runStart[p.tp] <= p.offset {
      hide DurableOk, CommitsOk, DoneOk;
      CaughtUpIsDone(log, s, p);
    } else {
      hide FlightOk, DoneOk, EffectsOk, PolledOk;
      assert p in s.published;
    }
  }

  lemma AlwaysBacked(log: Log, base: map<TopicPartition, nat>, s: Engine, y: Symbol)
    requires OneHome(log) && Reachable(log, base, s) && y in s.snapshots
    ensures Backed(log, y, s.snapshots[y])
  {
    hide ProcessOk;
    ReachableKeeps(log, base, s);
  }

  /** Replay converges: however the process crashed, retried and failed to commit on the way, once a
      partition is caught up Redis holds its fold, and everything was published, from where on the group
      answers for it. */
  lemma ReplayConvergesFrom(log: Log, base: map<TopicPartition, nat>, s: Engine, tp: TopicPartition)
    requires OneHome(log) && Reachable(log, base, s) && CaughtUp(log, s, tp)
    ensures ConvergedFrom(log, s, tp, ReadFrom(s, tp))
  {
    assert tp in log;
    var from := ReadFrom(s, tp);
    hide Reachable, CaughtUp, ReadFrom;
    forall p | ValidAt(log, p) && p.tp == tp && from <= p.offset ensures p in s.published {
      AllEffected(log, base, s, p);
    }
    forall y | LastOf(log[tp], y).Some? && from <= LastOf(log[tp], y).value
      ensures y in s.snapshots && y in Fold(log[tp]) && Timeless(s.snapshots[y].data) == Fold(log[tp])[y]
    {
      FoldIsLast(log[tp], y);
      var last := Position(tp, LastOf(log[tp], y).value);
      AllEffected(log, base, s, last);
      AlwaysBacked(log, base, s, y);
      assert s.snapshots[y].origin.tp == tp;
      assert s.snapshots[y].origin == last;
    }
  }

  lemma SinceStays1(log: Log, s: Engine, step: Step, tp: TopicPartition)
    requires Inv(log, s) && tp in s.committed
    ensures var t := Step1(log, s, step); tp in t.committed && tp in t.since && t.since[tp] == s.since[tp]
  {
    hide ProcessOk, Drained, Proposed, Started, Polled, Put, PutFailed, LeftLoop, Taken, Updated, PublishedStep,
      StoppedRetrying;
  }

  /** Once a partition has a committed offset, the group answers for it from one fixed point on. */
  lemma {:induction false} SinceStays(log: Log, s: Engine, steps: seq<Step>, tp: TopicPartition)
    requires OneHome(log) && Inv(log, s) && tp in s.committed
    ensures var t := Run(log, s, steps); Inv(log, t) && tp in t.committed && tp in t.since && t.since[tp] == s.since[tp]
  {
    if steps == [] {
      hide ProcessOk;
    } else {
      hide Inv, Step1;
      SinceStays(log, s, steps[..|steps| - 1], tp);
      StepKeeps(log, Run(log, s, steps[..|steps| - 1]), steps[|steps| - 1]);
      SinceStays1(log, Run(log, s, steps[..|steps| - 1]), steps[|steps| - 1], tp);
    }
  }

  lemma {:induction false} RunAppends(log: Log, s: Engine, a: seq<Step>, b: seq<Step>)
    ensures Run(log, s, a + b) == Run(log, Run(log, s, a), b)
  {
    hide Step1;
    if b == [] {
      assert a + b == a;
    } else {
      RunAppends(log, s, a, b[..|b| - 1]);
      assert (a + b)[..|a + b| - 1] == a + b[..|b| - 1];
    }
  }

  /** The restarting engine: from any reachable state in which the partition has a committed offset, however
      it got it, every run that catches up again converges on all records from that offset on, and from
      where the commits began. */
  lemma ReplayConvergesAfter(log: Log, base: map<TopicPartition, nat>, s: Engine, steps: seq<Step>, tp: TopicPartition)
    requires OneHome(log) && Reachable(log, base, s) && tp in s.committed
    requires CaughtUp(log, Run(log, s, steps), tp)
    ensures tp in s.since && s.since[tp] <= s.committed[tp]
    ensures ConvergedFrom(log, Run(log, s, steps), tp, s.since[tp])
    ensures ConvergedFrom(log, Run(log, s, steps), tp, s.committed[tp])
  {
    ReachableKeeps(log, base, s);
    var before :| s == Run(log, Deployed(base), before);
    RunAppends(log, Deployed(base), before, steps);
    assert s.since[tp] <= s.committed[tp] by { hide ProcessOk, Run; }
    SinceStays(log, s, steps, tp);
    assert Reachable(log, base, Run(log, s, steps)) by { hide CaughtUp, Inv, OneHome; }
    hide Inv, Run, CaughtUp, OneHome;
    ReplayConvergesFrom(log, base, Run(log, s, steps), tp);
  }

  /** No valid record lies below the offset the group was deployed with. */
  ghost predicate Covered(log: Log, base: map<TopicPartition, nat>, tp: TopicPartition) {
    tp in base && forall p | ValidAt(log, p) && p.tp == tp :: base[tp] <= p.offset
  }

  lemma BaseStays(log: Log, base: map<TopicPartition, nat>, s: Engine, tp: TopicPartition)
    requires OneHome(log) && Reachable(log, base, s) && tp in base
    ensures tp in s.since && s.since[tp] == base[tp]
  {
    var steps :| s == Run(log, Deployed(base), steps);
    RunKeeps(log, base, []);
    assert Run(log, Deployed(base), []) == Deployed(base);
    hide Run;
    SinceStays(log, Deployed(base), steps, tp);
  }

  /** The whole partition, if the group's offset left out no valid record. */
  lemma ReplayConverges(log: Log, base: map<TopicPartition, nat>, s: Engine, tp: TopicPartition)
    requires OneHome(log) && Reachable(log, base, s) && CaughtUp(log, s, tp) && Covered(log, base, tp)
    ensures ConvergedOn(log, s, tp)
  {
    BaseStays(log, base, s, tp);
    ReplayConvergesFrom(log, base, s, tp);
    hide Reachable, CaughtUp, OneHome;
    forall y | y in Fold(log[tp]) ensures y in s.snapshots && Timeless(s.snapshots[y].data) == Fold(log[tp])[y] {
      FoldIsLast(log[tp], y);
      assert ValidAt(log, Position(tp, LastOf(log[tp], y).value));
    }
  }

  /** Redis never holds a symbol that no record carries. */
  lemma NothingInvented(log: Log, base: map<TopicPartition, nat>, s: Engine, y: Symbol)
    requires OneHome(log) && Reachable(log, base, s) && y in s.snapshots
    ensures exists tp :: tp in log && y in Fold(log[tp])
  {
    AlwaysBacked(log, base, s, y);
    var p := s.snapshots[y].origin;
    FoldIsLast(log[p.tp], y);
  }

  ghost predicate HasValidRecord(log: Log, tp: TopicPartition) {
    exists p :: ValidAt(log, p) && p.tp == tp
  }

  ghost predicate AlwaysConverges(log: Log, base: map<TopicPartition, nat>, tp: TopicPartition)
    requires tp in log
  {
    forall s | Reachable(log, base, s) && CaughtUp(log, s, tp) :: ConvergedOn(log, s, tp)
  }

  lemma NothingToConvergeOn(log: Log, s: Engine, tp: TopicPartition)
    requires tp in log && !HasValidRecord(log, tp)
    ensures ConvergedOn(log, s, tp)
  {
    forall y ensures y !in Fold(log[tp]) {
      FoldIsLast(log[tp], y);
      var last := LastOf(log[tp], y);
      assert !ValidAt(log, Position(tp, if last.Some? then last.value else 0));
    }
  }

  /** Without a committed offset the consumer starts at the log's end and never sees what was there. */
  lemma StartsAtLogEnd(log: Log, base: map<TopicPartition, nat>, tp: TopicPartition) returns (s: Engine)
    requires Fits(log, base) && tp in log && tp !in base && HasValidRecord(log, tp)
    ensures Reachable(log, base, s) && CaughtUp(log, s, tp) && !ConvergedOn(log, s, tp)
  {
    s := Started(log, Deployed(base), map[]);
    assert s == Run(log, Deployed(base), [Start(map[])]) by {
      assert Run(log, Deployed(base), [Start(map[])][..0]) == Deployed(base);
    }
    assert Flight(s) == [];
    var p :| ValidAt(log, p) && p.tp == tp;
    assert p !in s.published;
  }

  /** Nothing below the deployed offset was ever published. */
  ghost predicate NothingBelow(base: map<TopicPartition, nat>, s: Engine) {
    forall p | p in s.published && p.tp in base :: base[p.tp] <= p.offset
  }

  lemma PublishedFromBase(log: Log, base: map<TopicPartition, nat>, s: Engine, answer: RedisAnswer)
    requires OneHome(log) && Reachable(log, base, s) && NothingBelow(base, s)
    ensures NothingBelow(base, PublishedStep(s, answer))
  {
    hide Inv, Reachable, OneHome, PublishedStep, SameTracking;
    if s.up && s.task.Busy? && s.task.item.tp in base {
      InHandFromBase(log, base, s);
    }
  }

  lemma InHandFromBase(log: Log, base: map<TopicPartition, nat>, s: Engine)
    requires OneHome(log) && Reachable(log, base, s) && s.up && s.task.Busy? && s.task.item.tp in base
    ensures base[s.task.item.tp] <= s.task.item.offset
  {
    ReachableKeeps(log, base, s);
    var c := s.task.item;
    assert c in Flight(s) by { hide Inv; }
    hide DurableOk, CursorsOk, AcksOk, LedgerOk, DoneOk, EffectsOk, CommitsOk, AheadOk, Flight;
    assert c.Place() in s.open && s.runStart[c.tp] <= c.offset;
    BaseStays(log, base, s, c.tp);
  }

  lemma {:induction false} NothingBelowBase(log: Log, base: map<TopicPartition, nat>, steps: seq<Step>)
    requires OneHome(log) && Fits(log, base)
    ensures NothingBelow(base, Run(log, Deployed(base), steps))
  {
    if steps != [] {
      var s := Run(log, Deployed(base), steps[..|steps| - 1]);
      NothingBelowBase(log, base, steps[..|steps| - 1]);
      assert Reachable(log, base, s);
      hide Reachable, OneHome, NothingBelow;
      match steps[|steps| - 1]
      case PublishEvent(answer) => PublishedFromBase(log, base, s, answer);
      case step => SamePublished(log, s, step, base);
    }
  }

  lemma SamePublished(log: Log, s: Engine, step: Step, base: map<TopicPartition, nat>)
    requires !step.PublishEvent? && NothingBelow(base, s)
    ensures NothingBelow(base, Step1(log, s, step))
  {
    hide Started, Polled, Put, PutFailed, LeftLoop, Taken, Updated, StoppedRetrying, DrainStep;
    assert Step1(log, s, step).published == s.published;
  }

  // ---- a run that catches up ----

  lemma Reaches(log: Log, base: map<TopicPartition, nat>, s: Engine, step: Step)
    requires Reachable(log, base, s)
    ensures Reachable(log, base, Step1(log, s, step))
  {
    hide Step1;
    var steps :| s == Run(log, Deployed(base), steps);
    assert (steps + [step])[..|steps + [step]| - 1] == steps;
    assert Step1(log, s, step) == Run(log, Deployed(base), steps + [step]);
  }

  /** Everything polled so far is finished, and `tp` was read up to `o`. */
  predicate AtRest(log: Log, s: Engine, tp: TopicPartition, o: nat) {
    && s.up && s.thread.Polling? && s.task.Waiting? && s.bridge.queue == [] && !s.shutdown
    && tp in log && tp in s.position && s.position[tp] == o <= |log[tp]|
  }

  lemma PassesOver(log: Log, base: map<TopicPartition, nat>, s: Engine, tp: TopicPartition, o: nat) returns (t: Engine)
    requires Reachable(log, base, s) && AtRest(log, s, tp, o) && o < |log[tp]| && log[tp][o].Malformed?
    ensures Reachable(log, base, t) && AtRest(log, t, tp, o + 1)
  {
    Reaches(log, base, s, PollRecord(tp, 0));
    hide Reachable, Put, PutFailed, DrainStep, Taken, Updated, PublishedStep, Started;
    t := Step1(log, s, PollRecord(tp, 0));
  }

  lemma HandsOver(log: Log, base: map<TopicPartition, nat>, s: Engine, tp: TopicPartition, o: nat) returns (t: Engine)
    requires Reachable(log, base, s) && AtRest(log, s, tp, o) && o < |log[tp]| && log[tp][o].Valid?
    ensures Reachable(log, base, t) && t.up && t.thread.Polling? && t.task.Waiting? && |t.bridge.queue| == 1
      && !t.shutdown
    ensures tp in t.position && t.position[tp] == o + 1
  {
    var polled := Step1(log, s, PollRecord(tp, 0));
    Reaches(log, base, s, PollRecord(tp, 0));
    Reaches(log, base, polled, PutDone);
    hide Reachable, PutFailed, DrainStep, Taken, Updated, PublishedStep, Started;
    t := Step1(log, polled, PutDone);
  }

  lemma Attempts(log: Log, base: map<TopicPartition, nat>, s: Engine) returns (t: Engine)
    requires Reachable(log, base, s) && s.up && s.thread.Polling? && s.task.Waiting? && |s.bridge.queue| == 1
      && !s.shutdown
    ensures Reachable(log, base, t) && t.up && t.thread.Polling? && t.task == Busy(s.bridge.queue[0], false)
      && t.bridge.queue == [] && !t.shutdown
    ensures t.position == s.position
  {
    hide Reachable, Put, PutFailed, DrainStep, Polled, Started, Updated, PublishedStep, StoppedRetrying, LeftLoop;
    var taken := Step1(log, s, TakeNext);
    Reaches(log, base, s, TakeNext);
    Reaches(log, base, taken, BeginAttempt);
    t := Step1(log, taken, BeginAttempt);
  }

  lemma Finishes(log: Log, base: map<TopicPartition, nat>, s: Engine) returns (t: Engine)
    requires Reachable(log, base, s) && s.up && s.thread.Polling? && s.task.Waiting? && |s.bridge.queue| == 1
      && !s.shutdown
    ensures Reachable(log, base, t) && t.up && t.thread.Polling? && t.task.Waiting? && t.bridge.queue == []
      && !t.shutdown
    ensures t.position == s.position
  {
    var begun := Attempts(log, base, s);
    Reaches(log, base, begun, UpdateSnapshot(Done));
    var updated := Step1(log, begun, UpdateSnapshot(Done));
    Reaches(log, base, updated, PublishEvent(Done));
    hide Reachable, Put, PutFailed, DrainStep, Polled, Started, Taken;
    t := Step1(log, updated, PublishEvent(Done));
  }

  lemma OneMoreRecord(log: Log, base: map<TopicPartition, nat>, s: Engine, tp: TopicPartition, o: nat)
    returns (t: Engine)
    requires Reachable(log, base, s) && AtRest(log, s, tp, o) && o < |log[tp]|
    ensures Reachable(log, base, t) && AtRest(log, t, tp, o + 1)
  {
    hide Reachable;
    if log[tp][o].Malformed? {
      t := PassesOver(log, base, s, tp, o);
    } else {
      t := HandsOver(log, base, s, tp, o);
      t := Finishes(log, base, t);
    }
  }

  lemma {:induction false} CatchesUp(log: Log, base: map<TopicPartition, nat>, s: Engine, tp: TopicPartition, o: nat)
    returns (t: Engine)
    requires Reachable(log, base, s) && AtRest(log, s, tp, o)
    ensures Reachable(log, base, t) && CaughtUp(log, t, tp)
    decreases |log[tp]| - o
  {
    if o == |log[tp]| {
      t := s;
      assert Flight(t) == [];
    } else {
      hide Reachable;
      t := OneMoreRecord(log, base, s, tp, o);
      t := CatchesUp(log, base, t, tp, o + 1);
    }
  }

  /** The engine can always catch up with a partition, whatever offsets the group was deployed with. */
  lemma CatchUpIsPossible(log: Log, base: map<TopicPartition, nat>, tp: TopicPartition) returns (s: Engine)
    requires Fits(log, base) && tp in log
    ensures Reachable(log, base, s) && CaughtUp(log, s, tp)
  {
    s := Deployed(base);
    assert Reachable(log, base, s) by { assert s == Run(log, Deployed(base), []); }
    Reaches(log, base, s, Start(map[]));
    s := Step1(log, s, Start(map[]));
    s := CatchesUp(log, base, s, tp, s.position[tp]);
  }

  /** For a partition the guarantee holds over every run exactly when the group was deployed with a committed
      offset that leaves out no valid record, or there is no valid record at all. */
  lemma ConvergesExactlyWhenCovered(log: Log, base: map<TopicPartition, nat>, tp: TopicPartition)
    requires OneHome(log) && Fits(log, base) && tp in log
    ensures AlwaysConverges(log, base, tp) <==> (Covered(log, base, tp) || !HasValidRecord(log, tp))
  {
    if Covered(log, base, tp) {
      forall s | Reachable(log, base, s) && CaughtUp(log, s, tp) ensures ConvergedOn(log, s, tp) {
        ReplayConverges(log, base, s, tp);
      }
    } else if !HasValidRecord(log, tp) {
      forall s ensures ConvergedOn(log, s, tp) {
        NothingToConvergeOn(log, s, tp);
      }
    } else if tp !in base {
      var s := StartsAtLogEnd(log, base, tp);
    } else {
      var s := CatchUpIsPossible(log, base, tp);
      var p :| ValidAt(log, p) && p.tp == tp && p.offset < base[tp];
      var steps :| s == Run(log, Deployed(base), steps);
      NothingBelowBase(log, base, steps);
      hide Run, CaughtUp;
      assert p !in s.published;
    }
  }
}
