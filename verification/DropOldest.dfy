/** Bounded queues that make room by discarding their oldest element. */
module DropOldest {

  function PutLatest<T>(queue: seq<T>, x: T, capacity: nat): (after: seq<T>)
    requires 0 < capacity
    ensures |queue| <= capacity ==> |after| <= capacity
    ensures after != [] && after[|after| - 1] == x
  {
    if |queue| < capacity then queue + [x] else queue[1..] + [x]
  }

  /** A queue together with everything that happened to it. Elements are named by their place in `puts`. */
  datatype History<T> = History(queue: seq<T>, puts: seq<T>, taken: seq<nat>, dropped: nat)

  datatype Op<T> = Put(x: T) | Take

  function Apply<T>(h: History<T>, op: Op<T>, capacity: nat): History<T>
    requires 0 < capacity
  {
    match op
    case Put(x) =>
      History(PutLatest(h.queue, x, capacity), h.puts + [x], h.taken, if |h.queue| < capacity then h.dropped
        else h.dropped + 1)
    case Take =>
      if h.queue == [] || |h.puts| < |h.queue| then h
      else h.(queue := h.queue[1..], taken := h.taken + [|h.puts| - |h.queue|])
  }

  function Run<T>(ops: seq<Op<T>>, capacity: nat): History<T>
    requires 0 < capacity
  {
    if ops == [] then History([], [], [], 0) else Apply(Run(ops[..|ops| - 1], capacity), ops[|ops| - 1], capacity)
  }

  ghost predicate IsSuffix<T>(s: seq<T>, whole: seq<T>) {
    |s| <= |whole| && s == whole[|whole| - |s|..]
  }

  ghost predicate Increasing(places: seq<nat>, bound: nat) {
    (forall i | 0 <= i < |places| :: places[i] < bound)
      && (forall i, j | 0 <= i < j < |places| :: places[i] < places[j])
  }

  /** For any interleaving of puts and takes the queue is the most recent stretch of what was put, what was
      taken left in the order it was put and lies before the queue, and nothing is lost from the books:
      everything put was taken, dropped or is still queued. */
  lemma {:induction false} QueueConserves<T>(ops: seq<Op<T>>, capacity: nat)
    requires 0 < capacity
    ensures var h := Run(ops, capacity);
      && IsSuffix(h.queue, h.puts) && |h.queue| <= capacity
      && Increasing(h.taken, |h.puts| - |h.queue|)
      && |h.puts| == |h.taken| + h.dropped + |h.queue|
  {
    if ops != [] {
      QueueConserves(ops[..|ops| - 1], capacity);
    }
  }
}
