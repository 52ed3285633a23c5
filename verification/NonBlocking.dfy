/** The queue between collector tasks (wings_control/rag_acc/non_blocking_queue.py): a deque and an
    event.  The lock is never held across a suspension, so each operation, and each pass through the
    loop of `get`, is one atomic step. */
module NonBlocking {
  import opened Common

  /** `notEmpty` is the event a suspended `get` waits for. */
  datatype Queue<T> = Queue(items: seq<T>, notEmpty: bool) {
    /** Holds at every suspension point: a waiting `get` is woken exactly when there is an item. */
    predicate Valid() {
      notEmpty == (items != [])
    }
  }

  function Appended<T>(q: Queue<T>, x: T): Queue<T> {
    Queue(q.items + [x], true)
  }

  function Prepended<T>(q: Queue<T>, x: T): Queue<T> {
    Queue([x] + q.items, true)
  }

  /** One pass through the loop of `get`: the first item, or None and the event cleared. */
  function TryGet<T>(q: Queue<T>): (Queue<T>, Option<T>) {
    if q.items == [] then (q.(notEmpty := false), None)
    else (Queue(q.items[1..], q.notEmpty && |q.items| > 1), Some(q.items[0]))
  }

  datatype Op<T> = OpPut(item: T) | OpPrepend(item: T) | OpGet

  function Apply<T>(q: Queue<T>, op: Op<T>): Queue<T> {
    match op
    case OpPut(x) => Appended(q, x)
    case OpPrepend(x) => Prepended(q, x)
    case OpGet => TryGet(q).0
  }

  function Run<T>(ops: seq<Op<T>>): Queue<T> {
    if ops == [] then Queue([], false) else Apply(Run(ops[..|ops| - 1]), ops[|ops| - 1])
  }

  /** No wake-up is ever lost: after any operations in any order the event is set exactly when an
      item is there to take. */
  lemma {:induction false} EventTracksItems<T>(ops: seq<Op<T>>)
    ensures Run(ops).Valid()
  {
    if ops != [] {
      EventTracksItems(ops[..|ops| - 1]);
    }
  }

  /** Taking an item and putting it back at the front is no change at all. */
  lemma GetThenPrepend<T>(q: Queue<T>)
    requires q.Valid() && q.items != []
    ensures var (q', x) := TryGet(q); x.Some? && Prepended(q', x.value) == q
  {
    assert [q.items[0]] + q.items[1..] == q.items;
  }

  class NonBlockingQueue<T> {
    var queue: seq<T>
    var notEmpty: bool

    ghost function Abs(): Queue<T>
      reads this
    {
      Queue(queue, notEmpty)
    }

    constructor ()
      ensures Abs() == Run([])
    {
      queue, notEmpty := [], false;
    }

    method Put(x: T)
      modifies this
      ensures Abs() == Appended(old(Abs()), x)
    {
      queue := queue + [x];
      notEmpty := true;
    }

    method Prepend(x: T)
      modifies this
      ensures Abs() == Prepended(old(Abs()), x)
    {
      queue := [x] + queue;
      notEmpty := true;
    }

    /** One pass through the loop of `get`; on None the caller waits for the event. */
    method GetOnce() returns (item: Option<T>)
      modifies this
      ensures (Abs(), item) == TryGet(old(Abs()))
    {
      if queue == [] {
        notEmpty := false;
        return None;
      }
      item := Some(queue[0]);
      queue := queue[1..];
      if queue == [] {
        notEmpty := false;
      }
    }
  }
}
