/** The single-consumer queue of agent reports: apps/worker/src/worker.ts, ReportQueue. */
module ReportQueue {
  import opened Wrappers

  /** What an agent, or a person on its behalf, tells the worker. */
  datatype LocalReport =
    | AgentCompleted(summary: Option<string>)
    | AgentFailed(reason: string)
    | AgentAsk(question: string)

  /** The queued reports, and whether a consumer is parked waiting for the next one. */
  datatype Queue = Queue(items: seq<LocalReport>, parked: bool) {
    predicate Valid() {
      parked ==> items == []
    }
  }

  datatype QueueOp = PushOp(item: LocalReport) | NextOp | TimeoutOp

  /** One consumer: it asks again only after it got its answer, and its timer runs only meanwhile. */
  predicate Allowed(q: Queue, op: QueueOp) {
    match op
    case PushOp(_) => true
    case NextOp => !q.parked
    case TimeoutOp => q.parked
  }

  /** The queue after an operation and the report it hands to the consumer, if any. */
  function After(q: Queue, op: QueueOp): (Queue, Option<LocalReport>) {
    match op
    case PushOp(item) =>
      if q.parked then (q.(parked := false), Some(item)) else (q.(items := q.items + [item]), None)
    case NextOp =>
      if q.items != [] then (q.(items := q.items[1..]), Some(q.items[0])) else (q.(parked := true), None)
    case TimeoutOp => (q.(parked := false), None)
  }

  predicate AllowedAll(q: Queue, ops: seq<QueueOp>)
    decreases |ops|
  {
    ops == [] || (Allowed(q, ops[0]) && AllowedAll(After(q, ops[0]).0, ops[1..]))
  }

  function AfterAll(q: Queue, ops: seq<QueueOp>): Queue
    decreases |ops|
  {
    if ops == [] then q else AfterAll(After(q, ops[0]).0, ops[1..])
  }

  function Delivered(q: Queue, ops: seq<QueueOp>): seq<LocalReport>
    decreases |ops|
  {
    if ops == [] then []
    else
      var (next, handed) := After(q, ops[0]);
      (if handed.Some? then [handed.value] else []) + Delivered(next, ops[1..])
  }

  function Pushed(ops: seq<QueueOp>): seq<LocalReport> {
    if ops == [] then [] else (if ops[0].PushOp? then [ops[0].item] else []) + Pushed(ops[1..])
  }

  /**
    * Whatever the interleaving of pushes, reads and timeouts, the reports delivered followed
    * by those still queued are the reports pushed, in order; and a consumer parks only on an
    * empty queue.
    */
  lemma {:induction false} NothingLostOrReordered(q: Queue, ops: seq<QueueOp>)
    requires q.Valid() && AllowedAll(q, ops)
    ensures AfterAll(q, ops).Valid()
    ensures Delivered(q, ops) + AfterAll(q, ops).items == q.items + Pushed(ops)
    decreases |ops|
  {
    if ops != [] {
      var (next, handed) := After(q, ops[0]);
      NothingLostOrReordered(next, ops[1..]);
      var head := if handed.Some? then [handed.value] else [];
      var pushed := if ops[0].PushOp? then [ops[0].item] else [];
      var tail, rest := Delivered(next, ops[1..]), AfterAll(q, ops).items;
      OneStep(q, ops[0]);
      Regrouped(head, tail, rest, next.items, Pushed(ops[1..]), q.items, pushed);
    }
  }

  lemma Regrouped<T>(head: seq<T>, tail: seq<T>, rest: seq<T>, mid: seq<T>, later: seq<T>,
                     items: seq<T>, pushed: seq<T>)
    requires tail + rest == mid + later && head + mid == items + pushed
    ensures (head + tail) + rest == items + (pushed + later)
  {
    assert (head + tail) + rest == head + (tail + rest);
    assert head + (mid + later) == (head + mid) + later;
  }

  lemma OneStep(q: Queue, op: QueueOp)
    requires q.Valid() && Allowed(q, op)
    ensures After(q, op).0.Valid()
    ensures (if After(q, op).1.Some? then [After(q, op).1.value] else []) + After(q, op).0.items
         == q.items + (if op.PushOp? then [op.item] else [])
  {}

  function Asks(ops: seq<QueueOp>): nat {
    if ops == [] then 0 else (if ops[0].NextOp? then 1 else 0) + Asks(ops[1..])
  }

  function Timeouts(ops: seq<QueueOp>): nat {
    if ops == [] then 0 else (if ops[0].TimeoutOp? then 1 else 0) + Timeouts(ops[1..])
  }

  /** Each time the consumer asks it gets one report, or is told that time is up, or is still parked: never two. */
  lemma {:induction false} EachAskEndsOnce(q: Queue, ops: seq<QueueOp>)
    requires AllowedAll(q, ops)
    ensures Asks(ops) + (if q.parked then 1 else 0)
         == |Delivered(q, ops)| + Timeouts(ops) + if AfterAll(q, ops).parked then 1 else 0
    decreases |ops|
  {
    if ops != [] {
      EachAskEndsOnce(After(q, ops[0]).0, ops[1..]);
    }
  }

  class ReportQueue {
    var items: seq<LocalReport>
    var waiter: bool

    function Model(): Queue
      reads this
    {
      Queue(items, waiter)
    }

    constructor ()
      ensures Model() == Queue([], false)
    {
      items, waiter := [], false;
    }

    /** Hands the report to a parked consumer, or queues it. */
    method Push(item: LocalReport) returns (handed: Option<LocalReport>)
      modifies this
      ensures Allowed(old(Model()), PushOp(item)) && (Model(), handed) == After(old(Model()), PushOp(item))
    {
      if waiter {
        waiter := false;
        return Some(item);
      }
      items := items + [item];
      handed := None;
    }

    /** Returns the head at once, or parks the consumer. */
    method Next() returns (head: Option<LocalReport>)
      requires !waiter
      modifies this
      ensures Allowed(old(Model()), NextOp) && (Model(), head) == After(old(Model()), NextOp)
    {
      if items != [] {
        head, items := Some(items[0]), items[1..];
        return;
      }
      waiter := true;
      head := None;
    }

    /** The timer of a parked consumer fires. */
    method Timeout()
      requires waiter
      modifies this
      ensures Allowed(old(Model()), TimeoutOp) && (Model(), None) == After(old(Model()), TimeoutOp)
    {
      waiter := false;
    }
  }
}
