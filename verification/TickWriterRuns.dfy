/** Runs of the tick writer: polling a partitioned log, batching by size and age, idempotent inserts with
    ambiguous failures, per-partition commits, poison records, stop, crash and restart.
    Every sequence of steps is a run; a step that the current state does not allow changes nothing. */
module TickWriterRuns {
  import opened Events

  /** The unique index that makes inserts idempotent. */
  datatype RowKey = RowKey(symbol: Symbol, seqNo: int, eventTs: int)

  function KeyOf(e: MarketEvent): RowKey {
    RowKey(e.symbol, e.seqNo, e.eventTs)
  }

  function KeysOf(batch: seq<Consumed>): set<RowKey> {
    set c | c in batch :: KeyOf(c.event)
  }

  datatype Config = Config(maxSize: nat, maxLatency: nat)

  const IDLE_POLL_MS := 50

  /** What follows a successful flush: on with polling, or skipping the malformed record that forced it. */
  datatype Then = Resume | SkipInvalid(place: Position)

  datatype Phase =
    | Down
    | Polling
    | Flushing(then_: Then)
    | Committing(todo: seq<Position>, then_: Then)
    | CommittingInvalid(place: Position)
    | Stopped

  datatype Writer = Writer(
    // survives a crash
    committed: map<TopicPartition, nat>,
    rows: set<RowKey>,
    // one process
    phase: Phase,
    position: map<TopicPartition, nat>,
    batch: seq<Consumed>,
    batchStarted: int,
    now: int,
    stop: bool,
    inserted: nat,
    // what has happened in this process
    flushedTo: map<TopicPartition, nat>,
    rowsAtStart: set<RowKey>,
    unreported: nat,
    discarded: seq<Consumed>)

  datatype PollResult = Idle | BrokerError | Message(tp: TopicPartition)

  /** How an insert ends. `Lost` wrote the rows although the caller saw a timeout or an error. */
  datatype InsertAnswer = Inserted | Refused | Lost

  /** A commit that raises ends the process; it may have landed all the same. */
  datatype CommitAnswer = Done | Raised(landed: bool)

  datatype Step =
    | Start(now: int)
    | Crash
    | RequestStop
    | Poll(result: PollResult, elapsed: nat)
    | ExitLoop
    | Insert(answer: InsertAnswer, pause: nat)
    | CommitNext(commit: CommitAnswer)

  const FRESH := Writer(map[], {}, Down, map[], [], 0, 0, false, 0, map[], {}, 0, [])

  function CommittedAt(committed: map<TopicPartition, nat>, tp: TopicPartition): nat {
    if tp in committed then committed[tp] else 0
  }

  // ---- batching ----

  function Expired(cfg: Config, age: int): bool {
    age >= cfg.maxLatency
  }

  function ShouldFlush(cfg: Config, size: nat, age: int): bool {
    size >= cfg.maxSize || Expired(cfg, age)
  }

  function PollTimeout(cfg: Config, size: nat, age: int): nat {
    if size == 0 then IDLE_POLL_MS
    else
      var remaining := if cfg.maxLatency - age > 0 then cfg.maxLatency - age else 0;
      if remaining < IDLE_POLL_MS then remaining else IDLE_POLL_MS
  }

  function Age(w: Writer): int {
    w.now - w.batchStarted
  }

  /** The list of commits for a batch, one per partition in order of first appearance. */
  function Upsert(list: seq<Position>, p: Position): seq<Position> {
    if list == [] then [p]
    else if list[0].tp == p.tp then (if list[0].offset < p.offset then [p] + list[1..] else list)
    else [list[0]] + Upsert(list[1..], p)
  }

  function CommitList(batch: seq<Consumed>): seq<Position> {
    if batch == [] then [] else Upsert(CommitList(batch[..|batch| - 1]), batch[|batch| - 1].Place())
  }

  // ---- the steps ----

  /** With `auto.offset.reset=earliest` a partition without a committed offset starts at zero. */
  function Started(log: Log, w: Writer, now: int): Writer {
    if !w.phase.Down? then w
    else
      var position := map tp | tp in log :: CommittedAt(w.committed, tp);
      w.(phase := Polling, position := position, batch := [], batchStarted := now, now := now,
         stop := false, inserted := 0,
         flushedTo := position, rowsAtStart := w.rows, unreported := 0, discarded := [])
  }

  function Appended(cfg: Config, w: Writer, c: Consumed): Writer {
    var grown := w.(position := w.position[c.tp := c.offset + 1], batch := w.batch + [c],
                    batchStarted := if w.batch == [] then w.now else w.batchStarted);
    if ShouldFlush(cfg, |grown.batch|, Age(grown)) then grown.(phase := Flushing(Resume)) else grown
  }

  function MetInvalid(w: Writer, p: Position): Writer {
    w.(position := w.position[p.tp := p.offset + 1],
       phase := if w.batch != [] then Flushing(SkipInvalid(p)) else CommittingInvalid(p))
  }

  function Polled(cfg: Config, log: Log, w: Writer, result: PollResult, elapsed: nat): Writer {
    if !w.phase.Polling? || PollTimeout(cfg, |w.batch|, Age(w)) < elapsed then w
    else
      var v := w.(now := w.now + elapsed);
      match result
      case Idle => if v.batch != [] && Expired(cfg, Age(v)) then v.(phase := Flushing(Resume)) else v
      case BrokerError => v
      case Message(tp) =>
        if !(tp in log && tp in v.position && v.position[tp] < |log[tp]|) then v
        else
          var p := Position(tp, v.position[tp]);
          match log[tp][p.offset]
          case Valid(e) => Appended(cfg, v, Consumed(e, tp, p.offset))
          case Malformed => MetInvalid(v, p)
  }

  function LeftLoop(w: Writer): Writer {
    if w.phase.Polling? && w.stop then w.(phase := Stopped, discarded := w.batch, batch := []) else w
  }

  /** One turn of the flush loop: a stop request ends it before the next attempt. */
  function FlushTurn(w: Writer, answer: InsertAnswer, pause: nat): Writer {
    if !w.phase.Flushing? then w
    else if w.stop then w.(phase := Stopped, discarded := w.batch, batch := [])
    else
      var added := |KeysOf(w.batch) - w.rows|;
      match answer
      case Refused => w.(now := w.now + pause)
      case Lost => w.(now := w.now + pause, rows := w.rows + KeysOf(w.batch), unreported := w.unreported + added)
      case Inserted => w.(rows := w.rows + KeysOf(w.batch), inserted := w.inserted + added,
                          phase := Committing(CommitList(w.batch), w.phase.then_))
  }

  function CommitPlace(committed: map<TopicPartition, nat>, p: Position): map<TopicPartition, nat> {
    committed[p.tp := p.offset + 1]
  }

  function Committed(w: Writer, commit: CommitAnswer): Writer {
    match w.phase
    case Committing(todo, next) =>
      if todo == [] then w
      else if !commit.Done? then
        w.(phase := Down, committed := if commit.landed then CommitPlace(w.committed, todo[0]) else w.committed)
      else if |todo| > 1 then
        w.(phase := Committing(todo[1..], next), committed := CommitPlace(w.committed, todo[0]))
      else
        w.(phase := if next.Resume? then Polling else CommittingInvalid(next.place),
           committed := CommitPlace(w.committed, todo[0]), batch := [], flushedTo := w.position)
    case CommittingInvalid(p) =>
      if !commit.Done? then
        w.(phase := Down, committed := if commit.landed then CommitPlace(w.committed, p) else w.committed)
      else w.(phase := Polling, committed := CommitPlace(w.committed, p), flushedTo := w.position)
    case _ => w
  }

  function Step1(cfg: Config, log: Log, w: Writer, step: Step): Writer {
    match step
    case Start(now) => Started(log, w, now)
    case Crash => w.(phase := Down)
    case RequestStop => w.(stop := true)
    case Poll(result, elapsed) => Polled(cfg, log, w, result, elapsed)
    case ExitLoop => LeftLoop(w)
    case Insert(answer, pause) => FlushTurn(w, answer, pause)
    case CommitNext(commit) => Committed(w, commit)
  }

  function Run(cfg: Config, log: Log, w: Writer, steps: seq<Step>): Writer {
    if steps == [] then w else Step1(cfg, log, Run(cfg, log, w, steps[..|steps| - 1]), steps[|steps| - 1])
  }

  // ---- what the commit list is ----

  function Lookup(list: seq<Position>, tp: TopicPartition): Option<nat> {
    if list == [] then None else if list[0].tp == tp then Some(list[0].offset) else Lookup(list[1..], tp)
  }

  ghost predicate DistinctPartitions(list: seq<Position>) {
    list != [] ==> Lookup(list[1..], list[0].tp) == None && DistinctPartitions(list[1..])
  }

  function Greatest(batch: seq<Consumed>, tp: TopicPartition): Option<nat> {
    if batch == [] then None
    else
      var before, c := Greatest(batch[..|batch| - 1], tp), batch[|batch| - 1];
      if c.tp != tp || (before.Some? && c.offset <= before.value) then before else Some(c.offset)
  }

  lemma {:induction false} GreatestIsGreatest(batch: seq<Consumed>, tp: TopicPartition)
    ensures var g := Greatest(batch, tp);
      && (forall c | c in batch && c.tp == tp :: g.Some? && c.offset <= g.value)
      && (g.Some? ==> Position(tp, g.value) in Places(batch))
  {
    if batch != [] {
      var front, c := batch[..|batch| - 1], batch[|batch| - 1];
      GreatestIsGreatest(front, tp);
      assert batch == front + [c];
      PlacesOfAppend(front, [c]);
      PlacesOfOne(c);
    }
  }

  lemma {:induction false} UpsertLookup(list: seq<Position>, p: Position, tp: TopicPartition)
    ensures var before, after := Lookup(list, tp), Lookup(Upsert(list, p), tp);
      after == if tp != p.tp || (before.Some? && p.offset <= before.value) then before else Some(p.offset)
  {
    if list != [] && list[0].tp != p.tp {
      UpsertLookup(list[1..], p, tp);
    }
  }

  lemma {:induction false} UpsertDistinct(list: seq<Position>, p: Position)
    requires DistinctPartitions(list)
    ensures DistinctPartitions(Upsert(list, p)) && Upsert(list, p) != []
  {
    if list != [] && list[0].tp != p.tp {
      UpsertDistinct(list[1..], p);
      UpsertLookup(list[1..], p, list[0].tp);
    }
  }

  /** The commit list names each partition of the batch once, with its greatest offset. */
  lemma {:induction false} CommitListIsGreatest(batch: seq<Consumed>, tp: TopicPartition)
    ensures DistinctPartitions(CommitList(batch)) && Lookup(CommitList(batch), tp) == Greatest(batch, tp)
    ensures batch != [] ==> CommitList(batch) != []
  {
    if batch != [] {
      var front, c := batch[..|batch| - 1], batch[|batch| - 1];
      CommitListIsGreatest(front, tp);
      UpsertDistinct(CommitList(front), c.Place());
      UpsertLookup(CommitList(front), c.Place(), tp);
    }
  }

  lemma {:induction false} EntryIsLookup(list: seq<Position>, p: Position)
    requires DistinctPartitions(list) && p in list
    ensures Lookup(list, p.tp) == Some(p.offset)
  {
    if list[0] != p {
      EntryIsLookup(list[1..], p);
    }
  }

  lemma CommitListIsFromBatch(batch: seq<Consumed>, p: Position)
    requires p in CommitList(batch)
    ensures p in Places(batch)
  {
    CommitListIsGreatest(batch, p.tp);
    EntryIsLookup(CommitList(batch), p);
    GreatestIsGreatest(batch, p.tp);
  }
}
