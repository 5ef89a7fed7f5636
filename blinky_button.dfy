/** The blinky/button active object: an event loop whose dispatch function is
    a two-state run-to-completion state machine driving a one-shot time event.
 */
module BlinkyButton {
  import opened Events
  import opened Loops
  import opened TimeEvents

  /** Application signals, numbered from the first user signal. */
  const TIMEOUT_SIG: Signal := USER_SIG
  const BUTTON_PRESSED_SIG: Signal := USER_SIG + 1
  const BUTTON_RELEASED_SIG: Signal := USER_SIG + 2

  /** The application's signals are user signals, all different. */
  lemma ApplicationSignalsAreUserSignals()
    ensures IsUserSignal(TIMEOUT_SIG) && IsUserSignal(BUTTON_PRESSED_SIG) && IsUserSignal(BUTTON_RELEASED_SIG)
    ensures TIMEOUT_SIG != BUTTON_PRESSED_SIG && BUTTON_PRESSED_SIG != BUTTON_RELEASED_SIG && BUTTON_RELEASED_SIG != TIMEOUT_SIG
  {
  }

  /** The state field is a C enum: OFF and ON are its only named values, but
      the storage can hold any integer. */
  const OFF_STATE: int := 0
  const ON_STATE: int := 1

  /** Name of the dispatch function the object binds to its loop. */
  const HANDLER: string := "blinkybutton_event_handler"

  /** Loop configuration of the application: priority, and the number of
      slots of the static event-reference array given as queue storage. */
  const PRIORITY: Uint8 := 1
  const QUEUE_LEN: Uint32 := 10

  predicate KnownState(state: int) {
    state == OFF_STATE || state == ON_STATE
  }

  function Flip(state: int): (next: int)
    ensures KnownState(next)
    ensures KnownState(state) ==> next != state
  {
    if state == OFF_STATE then ON_STATE else OFF_STATE
  }

  /** The duration the handler passes to `time_event_arm` on a timeout in
      `state`: 200 ms leaving OFF, 800 ms leaving ON, both already divided by
      the tick period. */
  function TimeoutArm(state: int, tickPeriodMs: nat): (millisec: Uint32)
    requires tickPeriodMs >= 1
  {
    if state == OFF_STATE then 200 / tickPeriodMs else 800 / tickPeriodMs
  }

  /** What one dispatch does: the next state and the duration the time event
      is armed with, if any; `Fault` is the handler's failed assertion. */
  datatype Reaction = Reaction(next: int, arm: Option<Uint32>) | Fault

  /** The dispatch function as a transition function. INIT_SIG arms 200 ms and
      enters OFF from any state; a timeout in OFF arms 200 ms and enters ON; a
      timeout in ON arms 800 ms and enters OFF; every other signal leaves the
      state and the timer alone; any other signal in an unnamed state fails. */
  function Handle(state: int, sig: Signal, tickPeriodMs: nat): (r: Reaction)
    requires tickPeriodMs >= 1
    ensures r.Fault? <==> sig != INIT_SIG && !KnownState(state)
    ensures r.Reaction? ==> KnownState(r.next)
    ensures r.Reaction? ==> (r.arm.Some? <==> sig == INIT_SIG || sig == TIMEOUT_SIG)
    ensures r.Reaction? && r.arm.None? ==> r.next == state
    ensures sig == INIT_SIG ==> r == Reaction(OFF_STATE, Some(200 / tickPeriodMs))
    ensures sig == TIMEOUT_SIG && KnownState(state) ==>
              r == Reaction(Flip(state), Some(TimeoutArm(state, tickPeriodMs)))
  {
    if sig == INIT_SIG then Reaction(OFF_STATE, Some(200 / tickPeriodMs))
    else if state == OFF_STATE then
      if sig == TIMEOUT_SIG then Reaction(ON_STATE, Some(200 / tickPeriodMs))
      else Reaction(OFF_STATE, None)
    else if state == ON_STATE then
      if sig == TIMEOUT_SIG then Reaction(OFF_STATE, Some(800 / tickPeriodMs))
      else Reaction(ON_STATE, None)
    else Fault
  }

  /** The part of the object a dispatch changes: its state and its timer. */
  datatype Blinky = Blinky(state: int, timer: Timer)

  /** One dispatch applied to the object, arming the time event as
      `time_event_arm` does; `None` when the handler's assertion fails. */
  function Apply(b: Blinky, sig: Signal, tickPeriodMs: nat): (r: Option<Blinky>)
    requires tickPeriodMs >= 1
  {
    match Handle(b.state, sig, tickPeriodMs)
    case Fault => None
    case Reaction(next, arm) =>
      Some(Blinky(next, if arm.Some? then ChangePeriod(b.timer, TicksFor(arm.value, tickPeriodMs)) else b.timer))
  }

  /** Dispatches a sequence of signals in order, stopping at a failed assertion. */
  function Run(b: Blinky, sigs: seq<Signal>, tickPeriodMs: nat): (r: Option<Blinky>)
    requires tickPeriodMs >= 1
    decreases |sigs|
  {
    if sigs == [] then Some(b)
    else match Apply(b, sigs[0], tickPeriodMs)
      case None => None
      case Some(next) => Run(next, sigs[1..], tickPeriodMs)
  }

  function Signals(events: seq<Event>): (sigs: seq<Signal>)
    ensures |sigs| == |events|
    ensures forall i :: 0 <= i < |events| ==> sigs[i] == events[i].sig
  {
    seq(|events|, i requires 0 <= i < |events| => events[i].sig)
  }

  function Timeouts(n: nat): (sigs: seq<Signal>)
    ensures |sigs| == n
    ensures forall i :: 0 <= i < n ==> sigs[i] == TIMEOUT_SIG
  {
    seq(n, i => TIMEOUT_SIG)
  }

  /** Running two sequences one after the other is running their concatenation. */
  lemma {:induction false} RunAppend(b: Blinky, xs: seq<Signal>, ys: seq<Signal>, tickPeriodMs: nat)
    requires tickPeriodMs >= 1
    ensures Run(b, xs + ys, tickPeriodMs) ==
              match Run(b, xs, tickPeriodMs)
              case None => None
              case Some(mid) => Run(mid, ys, tickPeriodMs)
    decreases |xs|
  {
    if xs == [] {
      assert xs + ys == ys;
    } else {
      assert (xs + ys)[0] == xs[0];
      assert (xs + ys)[1..] == xs[1..] + ys;
      match Apply(b, xs[0], tickPeriodMs)
      case None =>
      case Some(next) => RunAppend(next, xs[1..], ys, tickPeriodMs);
    }
  }

  /** From a named state the handler never fails, whatever it receives, and
      the state stays a named one. */
  lemma {:induction false} NeverFaults(b: Blinky, sigs: seq<Signal>, tickPeriodMs: nat)
    requires tickPeriodMs >= 1 && KnownState(b.state)
    ensures Run(b, sigs, tickPeriodMs).Some?
    ensures KnownState(Run(b, sigs, tickPeriodMs).value.state)
    decreases |sigs|
  {
    if sigs != [] {
      var next := Apply(b, sigs[0], tickPeriodMs);
      NeverFaults(next.value, sigs[1..], tickPeriodMs);
    }
  }

  /** INIT_SIG resets the object whatever its state: it enters OFF with the
      time event armed for 200 ms. */
  lemma InitResets(b: Blinky, tickPeriodMs: nat)
    requires tickPeriodMs >= 1
    ensures Apply(b, INIT_SIG, tickPeriodMs) ==
              Some(Blinky(OFF_STATE, ChangePeriod(b.timer, TicksFor(200 / tickPeriodMs, tickPeriodMs))))
  {
  }

  /** Successive timeouts alternate the state, starting from a named one; the
      timer ends up armed with the duration of the last transition: 200 ms
      after entering ON, 800 ms after entering OFF. */
  lemma {:induction false} TimeoutsAlternate(b: Blinky, n: nat, tickPeriodMs: nat)
    requires tickPeriodMs >= 1 && KnownState(b.state) && n >= 1
    ensures var last := if n % 2 == 0 then b.state else Flip(b.state);
            Run(b, Timeouts(n), tickPeriodMs) ==
              Some(Blinky(last, ChangePeriod(b.timer, TicksFor(TimeoutArm(Flip(last), tickPeriodMs), tickPeriodMs))))
    decreases n
  {
    var sigs := Timeouts(n);
    var next := Apply(b, TIMEOUT_SIG, tickPeriodMs).value;
    assert sigs[1..] == Timeouts(n - 1);
    if n == 1 {
      assert Run(next, sigs[1..], tickPeriodMs) == Some(next);
    } else {
      TimeoutsAlternate(next, n - 1, tickPeriodMs);
    }
  }

  /** Button signals, and any other signal that is neither INIT_SIG nor a
      timeout, leave a named state and the timer exactly as they were. */
  lemma {:induction false} ButtonsChangeNothing(b: Blinky, sigs: seq<Signal>, tickPeriodMs: nat)
    requires tickPeriodMs >= 1 && KnownState(b.state)
    requires forall i :: 0 <= i < |sigs| ==> sigs[i] != INIT_SIG && sigs[i] != TIMEOUT_SIG
    ensures Run(b, sigs, tickPeriodMs) == Some(b)
    decreases |sigs|
  {
    if sigs != [] {
      ButtonsChangeNothing(b, sigs[1..], tickPeriodMs);
    }
  }

  /** With a 1 ms tick the two phases last 200 and 800 ticks. */
  lemma PhasesAtOneMillisecondTick()
    ensures TicksFor(TimeoutArm(OFF_STATE, 1), 1) == 200
    ensures TicksFor(TimeoutArm(ON_STATE, 1), 1) == 800
  {
  }

  /** With a 10 ms tick the handler's pre-divided durations are divided again
      by `time_event_arm`: ON lasts 2 ticks (20 ms) and OFF 8 ticks (80 ms). */
  lemma PhasesAtTenMillisecondTick()
    ensures TicksFor(TimeoutArm(OFF_STATE, 10), 10) == 2
    ensures TicksFor(TimeoutArm(ON_STATE, 10), 10) == 8
  {
  }

  /** `blinky_button_loop_handle`: the loop it extends, the state of the
      state machine and the embedded time event. */
  class BlinkyButtonLoop {
    const loop: EventLoop
    var state: int
    const timeEvent: TimeEvent

    /** The instance in zero-initialised static storage. */
    constructor ()
      ensures fresh(loop) && fresh(timeEvent)
      ensures loop.Valid() && loop.dispatch.None? && !loop.queueCreated && loop.thread.None?
      ensures loop.queue == [] && loop.posted == [] && loop.dispatched == []
      ensures state == OFF_STATE
      ensures timeEvent.owner == null && timeEvent.timer.None? && timeEvent.kind == OneShot
    {
      loop := new EventLoop();
      timeEvent := new TimeEvent();
      state := OFF_STATE;
    }

    ghost predicate Valid()
      reads this, loop, timeEvent
    {
      && loop.Valid()
      && loop.dispatch == Some(HANDLER)
      && timeEvent.owner == loop
      && timeEvent.sig == TIMEOUT_SIG
      && timeEvent.kind == OneShot
      && timeEvent.timer.Some?
      && !timeEvent.timer.value.autoReload
    }

    /** The object's state and timer as one value. */
    function Snapshot(): Blinky
      reads this, timeEvent
      requires timeEvent.timer.Some?
    {
      Blinky(state, timeEvent.timer.value)
    }

    /** `blinkybutton_event_handler_init`: binds the handler, makes the time
        event one-shot and then initialises it with TIMEOUT_SIG and this
        object's own loop. */
    method Init()
      requires loop.Valid()
      modifies loop`dispatch, timeEvent`kind, timeEvent`sig, timeEvent`owner, timeEvent`timer
      ensures Valid()
      ensures timeEvent.timer == Some(NewTimer(false))
    {
      loop.Init(HANDLER);
      timeEvent.kind := OneShot;
      timeEvent.Init(TIMEOUT_SIG, loop);
    }

    /** `blinkybutton_event_handler`: one run-to-completion dispatch. It
        returns false only from the failed assertion of an unnamed state. */
    method Dispatch(e: Event, tickPeriodMs: nat) returns (ok: bool)
      requires Valid() && tickPeriodMs >= 1
      modifies this`state, timeEvent`timer
      ensures Valid()
      ensures ok <==> Apply(old(Snapshot()), e.sig, tickPeriodMs).Some?
      ensures Apply(old(Snapshot()), e.sig, tickPeriodMs) == if ok then Some(Snapshot()) else None
      ensures !ok ==> Snapshot() == old(Snapshot())
    {
      if e.sig == INIT_SIG {
        timeEvent.Arm(200 / tickPeriodMs, false, tickPeriodMs);
        state := OFF_STATE;
        return true;
      }
      if state == OFF_STATE {
        if e.sig == TIMEOUT_SIG {
          timeEvent.Arm(200 / tickPeriodMs, false, tickPeriodMs);
          state := ON_STATE;
        }
        ok := true;
      } else if state == ON_STATE {
        if e.sig == TIMEOUT_SIG {
          timeEvent.Arm(800 / tickPeriodMs, false, tickPeriodMs);
          state := OFF_STATE;
        }
        ok := true;
      } else {
        ok := false;
      }
    }

    /** The start of the loop body: the initial event goes to the handler. */
    method DispatchInitial(tickPeriodMs: nat)
      requires Valid() && tickPeriodMs >= 1
      requires loop.thread.Some? && loop.dispatched == []
      modifies this`state, timeEvent`timer, loop`dispatched
      ensures Valid()
      ensures loop.dispatched == [InitialEvent] && loop.queue == old(loop.queue)
      ensures Apply(old(Snapshot()), INIT_SIG, tickPeriodMs) == Some(Snapshot())
      ensures state == OFF_STATE
    {
      var e := loop.TakeInitial();
      var ok := Dispatch(e, tickPeriodMs);
    }

    /** One iteration of the loop body: take the head of the queue and hand it
        to the handler; on an empty queue the thread waits (`blocked`). */
    method Step(tickPeriodMs: nat) returns (ok: bool, blocked: bool)
      requires Valid() && tickPeriodMs >= 1 && loop.dispatched != []
      modifies this`state, timeEvent`timer, loop`queue, loop`dispatched
      ensures Valid()
      ensures blocked <==> old(loop.queue) == []
      ensures blocked ==> ok && loop.queue == [] && loop.dispatched == old(loop.dispatched)
                          && Snapshot() == old(Snapshot())
      ensures !blocked ==>
        && loop.queue == old(loop.queue)[1..]
        && loop.dispatched == old(loop.dispatched) + [old(loop.queue)[0]]
        && Apply(old(Snapshot()), old(loop.queue)[0].sig, tickPeriodMs) == if ok then Some(Snapshot()) else None
    ensures !ok ==> Snapshot() == old(Snapshot())
    {
      var e := loop.Receive();
      if e.None? {
        return true, true;
      }
      ok := Dispatch(e.value, tickPeriodMs);
      blocked := false;
    }

    /** The loop body up to the point where its thread first waits: the
        initial event, then every queued event in order. The handler never
        fails, and the object ends where running the dispatched signals
        says. */
    method RunUntilBlocked(tickPeriodMs: nat)
      requires Valid() && tickPeriodMs >= 1
      requires loop.thread.Some? && loop.dispatched == []
      modifies this`state, timeEvent`timer, loop`queue, loop`dispatched
      ensures Valid()
      ensures loop.queue == [] && loop.dispatched == [InitialEvent] + old(loop.queue)
      ensures Run(old(Snapshot()), Signals(loop.dispatched), tickPeriodMs) == Some(Snapshot())
      ensures KnownState(state)
    {
      ghost var start := Snapshot();
      ghost var pending := loop.queue;
      DispatchInitial(tickPeriodMs);
      assert Run(start, Signals([InitialEvent]), tickPeriodMs) == Some(Snapshot()) by {
        assert Signals([InitialEvent]) == [INIT_SIG];
        assert Signals([InitialEvent])[1..] == [];
      }
      while loop.queue != []
        invariant Valid() && KnownState(state)
        invariant |loop.queue| <= |pending|
        invariant loop.queue == pending[|pending| - |loop.queue|..]
        invariant loop.dispatched == [InitialEvent] + pending[..|pending| - |loop.queue|]
        invariant Run(start, Signals(loop.dispatched), tickPeriodMs) == Some(Snapshot())
        decreases |loop.queue|
      {
        ghost var before := Snapshot();
        ghost var done := loop.dispatched;
        ghost var k := |pending| - |loop.queue|;
        assert Apply(before, pending[k].sig, tickPeriodMs).Some?;
        var ok, blocked := Step(tickPeriodMs);
        assert ok && !blocked;
        assert pending[..k + 1] == pending[..k] + [pending[k]];
        assert Signals(loop.dispatched) == Signals(done) + [pending[k].sig];
        RunAppend(start, Signals(done), [pending[k].sig], tickPeriodMs);
        assert Run(before, [pending[k].sig], tickPeriodMs) == Apply(before, pending[k].sig, tickPeriodMs);
      }
      assert pending[..|pending|] == pending;
    }
  }

  /** `main`: initialises the object, then starts its loop with priority 1,
      the ten-slot queue array and a stack of `minimalStackSize` words. The
      scheduler and the board bring-up are outside the model. */
  method Boot(minimalStackSize: nat) returns (blinky: BlinkyButtonLoop, ok: bool)
    requires minimalStackSize * STACK_WORD_BYTES < 0x1_0000_0000
    ensures fresh(blinky) && fresh(blinky.loop) && fresh(blinky.timeEvent)
    ensures blinky.Valid() && ok
    ensures blinky.loop.queueCreated && blinky.loop.capacity == 10
    ensures blinky.loop.thread == Some(Thread(minimalStackSize, 1))
    ensures blinky.loop.queue == [] && blinky.loop.dispatched == []
    ensures blinky.state == OFF_STATE && blinky.timeEvent.timer == Some(NewTimer(false))
  {
    blinky := new BlinkyButtonLoop();
    blinky.Init();
    var args := LoopArgs(PRIORITY, true, QUEUE_LEN, true, minimalStackSize * STACK_WORD_BYTES, 0);
    ok := blinky.loop.Start(args);
  }

  /** One full blink: after booting and running the initial dispatch, the
      timer expiry posts a timeout, whose dispatch enters ON with the timer
      re-armed; the next expiry brings it back to OFF. */
  method BlinkScenario(tickPeriodMs: nat)
    requires tickPeriodMs >= 1
  {
    var blinky, booted := Boot(128);
    blinky.RunUntilBlocked(tickPeriodMs);
    assert blinky.state == OFF_STATE;
    assert blinky.timeEvent.timer.value.running;
    var posted := blinky.timeEvent.Expire();
    assert posted && blinky.loop.queue == [Event(TIMEOUT_SIG)];
    assert !blinky.timeEvent.timer.value.running;
    var ok, blocked := blinky.Step(tickPeriodMs);
    assert !blocked && ok && blinky.state == ON_STATE;
    assert blinky.timeEvent.timer.value.period == TicksFor(200 / tickPeriodMs, tickPeriodMs);
    posted := blinky.timeEvent.Expire();
    ok, blocked := blinky.Step(tickPeriodMs);
    assert ok && blinky.state == OFF_STATE;
    assert blinky.timeEvent.timer.value.period == TicksFor(800 / tickPeriodMs, tickPeriodMs);
  }
}
