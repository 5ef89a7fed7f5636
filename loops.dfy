/** The event loop (active object): one bounded FIFO of events, one thread and
    one dispatch function per handle.

    A failed `configASSERT` halts the system in the source; here the method
    that reaches it returns `ok == false` and leaves the state as it was at
    the assertion.
 */
module Loops {
  import opened Events

  /** `sizeof(StackType_t)`: stack words are 32 bits on the Cortex-M ports. */
  const STACK_WORD_BYTES: nat := 4

  /** `tskIDLE_PRIORITY`, the priority of the scheduler's idle task. */
  const IDLE_PRIORITY: nat := 0

  /** Thread stack depth in words for a stack of `stackSize` bytes: the number
      of whole stack words that fit. */
  function StackDepth(stackSize: Uint32): (depth: nat)
    ensures depth * STACK_WORD_BYTES <= stackSize < (depth + 1) * STACK_WORD_BYTES
  {
    stackSize / STACK_WORD_BYTES
  }

  /** Scheduler priority of a loop's thread: relative to the idle task. */
  function ThreadPriority(priority: Uint8): (p: nat) {
    priority + IDLE_PRIORITY
  }

  /** Whether the static queue creation succeeds: it needs caller storage and
      a non-zero length (the scheduler refuses either otherwise). */
  predicate QueueCreates(args: LoopArgs) {
    args.hasQueueBuffer && args.queueLen > 0
  }

  /** Whether the static thread creation succeeds: it needs caller stack storage. */
  predicate ThreadCreates(args: LoopArgs) {
    args.hasStackBuffer
  }

  /** The delivery invariant of a loop. Before the loop body has run, nothing
      has been dispatched and the queue holds everything posted. Afterwards the
      first dispatched event is the initial one, and the events dispatched
      after it followed by those still queued are exactly the posted ones, in
      posting order. */
  ghost predicate Delivered(dispatched: seq<Event>, queue: seq<Event>, posted: seq<Event>) {
    if dispatched == [] then queue == posted
    else dispatched[0] == InitialEvent && dispatched[1..] + queue == posted
  }

  /** Dispatch order is post order: what has been dispatched after the initial
      event is a prefix of what was posted, and the queue is the rest. Once the
      queue is drained, every posted event has been dispatched, after INIT. */
  lemma DispatchOrderIsPostOrder(dispatched: seq<Event>, queue: seq<Event>, posted: seq<Event>)
    requires Delivered(dispatched, queue, posted) && dispatched != []
    ensures |dispatched| - 1 <= |posted|
    ensures dispatched[1..] == posted[..|dispatched| - 1]
    ensures queue == posted[|dispatched| - 1..]
    ensures queue == [] ==> dispatched == [InitialEvent] + posted
  {
  }

  /** The initial event is dispatched exactly once: as long as no producer posts
      INIT_SIG itself, it is the first dispatched event and no later one. */
  lemma InitDispatchedExactlyOnce(dispatched: seq<Event>, queue: seq<Event>, posted: seq<Event>)
    requires Delivered(dispatched, queue, posted) && dispatched != []
    requires forall i :: 0 <= i < |posted| ==> posted[i].sig != INIT_SIG
    ensures dispatched[0].sig == INIT_SIG
    ensures forall i :: 0 < i < |dispatched| ==> dispatched[i].sig != INIT_SIG
  {
    forall i | 0 < i < |dispatched|
      ensures dispatched[i].sig != INIT_SIG
    {
      assert dispatched[i] == (dispatched[1..] + queue)[i - 1];
    }
  }

  /** `event_loop_handle_t`: the queue, the thread and the dispatch function.
      The ghost fields record every event successfully posted and every event
      handed to the dispatch function, in order. */
  class EventLoop {
    var dispatch: Option<string>
    var queueCreated: bool
    var capacity: nat
    var queue: seq<Event>
    var thread: Option<Thread>
    ghost var posted: seq<Event>
    ghost var dispatched: seq<Event>

    ghost predicate Valid()
      reads this
    {
      && |queue| <= capacity
      && (!queueCreated ==> queue == [] && posted == [] && thread.None?)
      && (dispatched != [] ==> thread.Some?)
      && Delivered(dispatched, queue, posted)
    }

    /** A handle in zero-initialised static storage: no dispatch function, no
        queue, no thread. */
    constructor ()
      ensures Valid()
      ensures dispatch.None? && !queueCreated && capacity == 0 && thread.None?
      ensures queue == [] && posted == [] && dispatched == []
    {
      dispatch := None;
      queueCreated := false;
      capacity := 0;
      queue := [];
      thread := None;
      posted := [];
      dispatched := [];
    }

    /** `event_loop_init`: binds the dispatch function and touches nothing else. */
    method Init(handler: string)
      modifies this`dispatch
      ensures dispatch == Some(handler)
    {
      dispatch := Some(handler);
    }

    /** `event_loop_start`: creates the queue with `queueLen` slots of one event
        reference each, then the thread that runs the loop body. Either creation
        failing is fatal; a failed queue creation stops before the thread. */
    method Start(args: LoopArgs) returns (ok: bool)
      requires Valid() && !queueCreated
      modifies this`queueCreated, this`capacity, this`thread
      ensures Valid()
      ensures queueCreated == QueueCreates(args)
      ensures capacity == if QueueCreates(args) then args.queueLen else old(capacity)
      ensures thread == if QueueCreates(args) && ThreadCreates(args)
                        then Some(Thread(StackDepth(args.stackSize), ThreadPriority(args.priority)))
                        else None
      ensures ok <==> QueueCreates(args) && ThreadCreates(args)
    {
      var depth := StackDepth(args.stackSize);
      if !QueueCreates(args) {
        ok := false;
        return;
      }
      queueCreated, capacity := true, args.queueLen;
      if !ThreadCreates(args) {
        ok := false;
        return;
      }
      thread := Some(Thread(depth, ThreadPriority(args.priority)));
      ok := true;
    }

    /** `event_post`: appends at the back without waiting. A full queue fails
        the assertion: nothing is dropped, nothing is partly enqueued. */
    method Post(e: Event) returns (ok: bool)
      requires Valid() && queueCreated
      modifies this`queue, this`posted
      ensures Valid()
      ensures ok <==> |old(queue)| < capacity
      ensures queue == if ok then old(queue) + [e] else old(queue)
      ensures posted == if ok then old(posted) + [e] else old(posted)
    {
      ok := |queue| < capacity;
      if ok {
        queue := queue + [e];
        posted := posted + [e];
        assert dispatched != [] ==> dispatched[1..] + queue == (dispatched[1..] + old(queue)) + [e];
      }
    }

    /** `event_postFromISR`: the interrupt-safe variant, with the same effect on
        the queue. The yield request it reports belongs to the scheduler. */
    method PostFromIsr(e: Event) returns (ok: bool)
      requires Valid() && queueCreated
      modifies this`queue, this`posted
      ensures Valid()
      ensures ok <==> |old(queue)| < capacity
      ensures queue == if ok then old(queue) + [e] else old(queue)
      ensures posted == if ok then old(posted) + [e] else old(posted)
    {
      ok := Post(e);
    }

    /** Start of the loop body: the initial event is dispatched once, before
        anything is taken from the queue. */
    method TakeInitial() returns (e: Event)
      requires Valid() && thread.Some? && dispatched == []
      modifies this`dispatched
      ensures Valid()
      ensures e == InitialEvent && e.sig == INIT_SIG
      ensures dispatched == [InitialEvent]
    {
      e := InitialEvent;
      dispatched := [e];
    }

    /** One pass of the loop body's receive: takes the head of the queue for
        dispatch. On an empty queue the receive waits forever, so nothing
        happens (`None`). */
    method Receive() returns (e: Option<Event>)
      requires Valid() && dispatched != []
      modifies this`queue, this`dispatched
      ensures Valid()
      ensures old(queue) == [] ==> e.None? && queue == [] && dispatched == old(dispatched)
      ensures old(queue) != [] ==>
        && e == Some(old(queue)[0])
        && queue == old(queue)[1..]
        && dispatched == old(dispatched) + [old(queue)[0]]
    {
      if queue == [] {
        e := None;
        return;
      }
      var head := queue[0];
      assert (dispatched + [head])[1..] + queue[1..] == dispatched[1..] + queue;
      e := Some(head);
      queue := queue[1..];
      dispatched := dispatched + [head];
    }
  }

  /** A loop with room for one event: the first post succeeds, the second one,
      made before anything was taken, fails and leaves the queue as it was. */
  method OverflowScenario(a: Event, b: Event)
  {
    var loop := new EventLoop();
    var started := loop.Start(LoopArgs(1, true, 1, true, 512, 0));
    assert started && loop.capacity == 1;
    var postedA := loop.Post(a);
    assert postedA;
    var postedB := loop.Post(b);
    assert !postedB && loop.queue == [a];
  }
}
