/**
 The task queue of a CPU in the work stealing build: a ring buffer of process slots between
 `front` and `rear`, one entry always left free.
 */
module Ring {
  import opened Kernel

  const MAX_TASKS := 64

  // ---------- The queue as a sequence ----------

  datatype QueueOp = Push(p: nat) | PopFront | PopBack

  /** What a queue holds after an operation. */
  function After(q: seq<nat>, op: QueueOp): seq<nat> {
    match op
    case Push(p) => if |q| < MAX_TASKS - 1 then q + [p] else q
    case PopFront => if q == [] then q else q[1..]
    case PopBack => if q == [] then q else q[..|q| - 1]
  }

  /** What an operation returns. */
  function Returned(q: seq<nat>, op: QueueOp): Option<nat> {
    match op
    case Push(_) => None
    case PopFront => if q == [] then None else Some(q[0])
    case PopBack => if q == [] then None else Some(q[|q| - 1])
  }

  function Out(q: seq<nat>, op: QueueOp): seq<nat> {
    var r := Returned(q, op);
    if r.Some? then [r.value] else []
  }

  function Into(q: seq<nat>, op: QueueOp): seq<nat> {
    if op.Push? && |q| < MAX_TASKS - 1 then [op.p] else []
  }

  /** The queue after a sequence of operations, and what they returned. */
  function Replay(q: seq<nat>, ops: seq<QueueOp>): seq<nat>
    decreases |ops|
  {
    if ops == [] then q else Replay(After(q, ops[0]), ops[1..])
  }

  function Popped(q: seq<nat>, ops: seq<QueueOp>): seq<nat>
    decreases |ops|
  {
    if ops == [] then [] else Out(q, ops[0]) + Popped(After(q, ops[0]), ops[1..])
  }

  /** The entries of the pushes that found room. */
  function Pushed(q: seq<nat>, ops: seq<QueueOp>): seq<nat>
    decreases |ops|
  {
    if ops == [] then [] else Into(q, ops[0]) + Pushed(After(q, ops[0]), ops[1..])
  }

  /** No entry is lost, invented or duplicated: what a queue holds at the end and what was
      popped is what it held at first and what was pushed while there was room. */
  lemma {:induction false} Conservation(q: seq<nat>, ops: seq<QueueOp>)
    requires |q| < MAX_TASKS
    ensures |Replay(q, ops)| < MAX_TASKS
    ensures multiset(Replay(q, ops)) + multiset(Popped(q, ops)) == multiset(q) + multiset(Pushed(q, ops))
    decreases |ops|
  {
    if ops != [] {
      var rest := After(q, ops[0]);
      OneOperation(q, ops[0]);
      Conservation(rest, ops[1..]);
      var out, into := Out(q, ops[0]), Into(q, ops[0]);
      assert Popped(q, ops) == out + Popped(rest, ops[1..]) && Pushed(q, ops) == into + Pushed(rest, ops[1..]);
      Regroup(multiset(q), multiset(rest), multiset(Replay(q, ops)), multiset(out), multiset(Popped(rest, ops[1..])),
              multiset(into), multiset(Pushed(rest, ops[1..])));
    }
  }

  lemma Regroup<T>(q: multiset<T>, rest: multiset<T>, end: multiset<T>, out: multiset<T>, outs: multiset<T>,
                   into: multiset<T>, intos: multiset<T>)
    requires rest + out == q + into && end + outs == rest + intos
    ensures end + (out + outs) == q + (into + intos)
  {
    calc {
      end + (out + outs);
      (end + outs) + out;
      (rest + intos) + out;
      (rest + out) + intos;
      (q + into) + intos;
      q + (into + intos);
    }
  }

  lemma OneOperation(q: seq<nat>, op: QueueOp)
    requires |q| < MAX_TASKS
    ensures |After(q, op)| < MAX_TASKS
    ensures multiset(After(q, op)) + multiset(Out(q, op)) == multiset(q) + multiset(Into(q, op))
  {
    if q != [] {
      assert q == [q[0]] + q[1..];
      assert q == q[..|q| - 1] + [q[|q| - 1]];
    }
  }

  // ---------- The ring buffer ----------

  /** The entries of a ring buffer from front up to, not including, rear. */
  function Window(a: seq<nat>, front: nat, rear: nat): (q: seq<nat>)
    requires |a| == MAX_TASKS && front < MAX_TASKS && rear < MAX_TASKS
  {
    if front <= rear then a[front..rear] else a[front..] + a[..rear]
  }

  /** struct cpu's queue, front and rear. */
  class TaskQueue {
    var queue: array<nat>
    var front: int
    var rear: int

    ghost predicate Valid()
      reads this
    {
      && queue.Length == MAX_TASKS
      && 0 <= front < MAX_TASKS && 0 <= rear < MAX_TASKS
    }

    /** The sequence that front and rear represent. */
    ghost function Contents(): (q: seq<nat>)
      reads this, queue
      requires Valid()
      ensures |q| < MAX_TASKS
    {
      Window(queue[..], front, rear)
    }

    constructor ()
      ensures Valid() && fresh(queue) && Contents() == []
    {
      queue := new nat[MAX_TASKS];
      front := 0;
      rear := 0;
    }

    method PushBack(p: nat)
      requires Valid()
      modifies this`rear, queue
      ensures Valid() && queue == old(queue)
      ensures Contents() == After(old(Contents()), Push(p))
    {
      var next := (rear + 1) % MAX_TASKS;
      if next == front {
        return;
      }
      queue[rear] := p;
      rear := next;
      assert Contents() == old(Contents()) + [p];
    }

    method TakeFront() returns (p: Option<nat>)
      requires Valid()
      modifies this`front
      ensures Valid()
      ensures Contents() == After(old(Contents()), PopFront)
      ensures p == Returned(old(Contents()), PopFront)
    {
      if front == rear {
        return None;
      }
      p := Some(queue[front]);
      front := (front + 1) % MAX_TASKS;
      assert Contents() == old(Contents())[1..];
    }

    method TakeBack() returns (p: Option<nat>)
      requires Valid()
      modifies this`rear
      ensures Valid()
      ensures Contents() == After(old(Contents()), PopBack)
      ensures p == Returned(old(Contents()), PopBack)
    {
      if front == rear {
        return None;
      }
      rear := (rear - 1 + MAX_TASKS) % MAX_TASKS;
      p := Some(queue[rear]);
      ghost var was := old(Contents());
      assert Contents() == was[..|was| - 1];
    }
  }
}
