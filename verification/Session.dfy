/** One client's outbound side: messages, the subscription filter, the bounded queue with its two
    policies, and the writer loop. */
module Session {
  import opened Events
  import opened DropOldest

  const QUEUE_MAX_SIZE := 500
  const SLOW_CLIENT_DROP_LIMIT := 100
  const PERCENT_EPSILON := 0.000000001

  datatype Message = Snapshot(data: SnapshotData) | Incremental(event: MarketEvent) | Notice(text: string) {
    predicate IsData() {
      !Notice?
    }

    function SymbolOf(): Symbol
      requires IsData()
    {
      if Snapshot? then data.symbol else event.symbol
    }

    function SeqOf(): int
      requires IsData()
    {
      if Snapshot? then data.seqNo else event.seqNo
    }

    function BidOf(): real
      requires IsData()
    {
      if Snapshot? then data.bid else event.bid
    }
  }

  datatype Filter = Filter(minChangePct: Option<real>, maxSpread: Option<real>)

  function ChangePct(last: real, bid: real): real
    requires last != 0.0
  {
    var change := (bid - last) / last;
    (if change < 0.0 then -change else change) * 100.0
  }

  /** The move from `last` to `bid` stays below the threshold. A zero baseline has no deadband. */
  predicate WithinDeadband(last: real, bid: real, minChangePct: real) {
    last != 0.0 && ChangePct(last, bid) + PERCENT_EPSILON < minChangePct
  }

  predicate ShouldDeliver(filter: Option<Filter>, lastPrice: Option<real>, e: MarketEvent) {
    && (filter.Some? && filter.value.maxSpread.Some? ==> e.ask - e.bid <= filter.value.maxSpread.value)
    && (filter.Some? && filter.value.minChangePct.Some? && lastPrice.Some? ==>
          !WithinDeadband(lastPrice.value, e.bid, filter.value.minChangePct.value))
  }

  datatype Policy = DropOldestPolicy | Disconnect

  datatype Outbound = Outbound(policy: Policy, queue: seq<Message>, dropped: nat, disconnected: bool)

  predicate Accepts(o: Outbound) {
    |o.queue| < QUEUE_MAX_SIZE || o.policy == DropOldestPolicy
  }

  function Enqueued(o: Outbound, m: Message): (after: Outbound)
    ensures after.policy == o.policy
    ensures Accepts(o) ==> after.queue != [] && after.queue[|after.queue| - 1] == m
    ensures !Accepts(o) ==> after.queue == o.queue && after.dropped == o.dropped + 1
  {
    if |o.queue| < QUEUE_MAX_SIZE then o.(queue := o.queue + [m])
    else
      match o.policy
      case DropOldestPolicy => o.(queue := PutLatest(o.queue, m, QUEUE_MAX_SIZE), dropped := o.dropped + 1)
      case Disconnect =>
        o.(dropped := o.dropped + 1, disconnected := o.disconnected || SLOW_CLIENT_DROP_LIMIT <= o.dropped + 1)
  }

  // ---- the writer loop, and what happens to every message ----

  datatype WriterState = Checking | Waiting | Sending(message: Message) | Finished

  datatype Wire = Wire(out: Outbound, writer: WriterState, calls: nat, sent: nat, failed: nat)

  datatype WireStep = Enqueue(message: Message) | Check | TimedOut | Take | SendSucceeds | SendFails | Close

  function Held(writer: WriterState): nat {
    if writer.Sending? then 1 else 0
  }

  function WireStep1(w: Wire, step: WireStep): Wire {
    match step
    case Enqueue(m) => w.(out := Enqueued(w.out, m), calls := w.calls + 1)
    case Check =>
      if !w.writer.Checking? then w
      else if w.out.disconnected then w.(writer := Finished)
      else w.(writer := Waiting)
    case TimedOut => if w.writer.Waiting? then w.(writer := Checking) else w
    case Take =>
      if w.writer.Waiting? && w.out.queue != [] then
        w.(writer := Sending(w.out.queue[0]), out := w.out.(queue := w.out.queue[1..]))
      else w
    case SendSucceeds => if w.writer.Sending? then w.(writer := Checking, sent := w.sent + 1) else w
    case SendFails =>
      if w.writer.Sending? then w.(writer := Finished, failed := w.failed + 1, out := w.out.(disconnected := true))
      else w
    case Close => w.(out := w.out.(disconnected := true), writer := Finished, failed := w.failed + Held(w.writer))
  }

  function WireRun(policy: Policy, steps: seq<WireStep>): Wire {
    if steps == [] then Wire(Outbound(policy, [], 0, false), Checking, 0, 0, 0)
    else WireStep1(WireRun(policy, steps[..|steps| - 1]), steps[|steps| - 1])
  }

  predicate Conserved(policy: Policy, w: Wire) {
    && w.out.policy == policy && |w.out.queue| <= QUEUE_MAX_SIZE
    && w.calls == w.sent + w.out.dropped + |w.out.queue| + Held(w.writer) + w.failed
    && Held(w.writer) + w.failed <= 1 && (0 < w.failed ==> w.writer.Finished?)
    && (policy == Disconnect && SLOW_CLIENT_DROP_LIMIT <= w.out.dropped ==> w.out.disconnected)
    && (policy == DropOldestPolicy && w.out.disconnected ==> w.writer.Finished?)
  }

  lemma EnqueueConserves(policy: Policy, w: Wire, m: Message)
    requires Conserved(policy, w)
    ensures Conserved(policy, WireStep1(w, Enqueue(m)))
  {
  }

  lemma StepConserves(policy: Policy, w: Wire, step: WireStep)
    requires Conserved(policy, w)
    ensures Conserved(policy, WireStep1(w, step))
  {
    hide Enqueued;
    if step.Enqueue? {
      EnqueueConserves(policy, w, step.message);
    }
  }

  /** Under either policy every enqueue call is accounted for: sent, dropped, still queued, or the one
      message the writer holds or failed on. A client under the disconnect policy that lost as many as
      the limit is disconnected; one under the other policy is only ever disconnected by its writer. */
  lemma {:induction false} MessagesAreConserved(policy: Policy, steps: seq<WireStep>)
    ensures Conserved(policy, WireRun(policy, steps))
  {
    if steps != [] {
      hide Conserved, WireStep1;
      MessagesAreConserved(policy, steps[..|steps| - 1]);
      StepConserves(policy, WireRun(policy, steps[..|steps| - 1]), steps[|steps| - 1]);
    }
  }
}
