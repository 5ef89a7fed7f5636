# Active-object event loop for FreeRTOS, in Dafny

This project models the active-object runtime of an STM32/FreeRTOS template
(`Event_Loop/`), together with the blinky/button state machine that uses it.

- **Events** (`events.dfy`, from `Event_Loop/Event.h`): 16-bit signals.
  `INIT_SIG` is 0 and `USER_SIG` is 1. Events carry a signal. The one-shot or
  periodic flag is the timer's auto-reload setting. Also the arguments that
  start a loop.
- **Loops** (`loops.dfy`, event-loop part of `Event_Loop/Event.c`): the class
  `EventLoop` holds the queue as a bounded `seq<Event>`, plus its capacity,
  its thread and its dispatch function.
  - Ghost fields record every event posted and every event handed to dispatch.
  - `Valid()` keeps the delivery invariant `Delivered`. The first dispatched
    event is `INIT_SIG`. After it come the posted events, in posting order.
    The queue holds the rest.
  - `Post` and `PostFromIsr` append at the back. A full queue is the fatal
    path: the queue is left as it was.
  - `TakeInitial` and `Receive` are the two halves of the loop body.
- **TimeEvents** (`time_events.dfy`, time-event part of `Event_Loop/Event.c`):
  - The software timer is a record `{running, period, autoReload}`.
  - `TicksFor` is the tick conversion, clamped to at least one tick.
  - The class `TimeEvent` holds the signal, the owning loop, the timer and the
    type flag. `Arm`, `Disarm` and `Expire` change it. `Expire` models the
    timer service firing the timer and calling the callback, which posts the
    time event to its owner.
- **BlinkyButton** (`blinky_button.dfy`, from `Event_Loop/Example.c`):
  - The handler is a transition function `Handle`, folded over signal
    sequences by `Run`.
  - Lemmas cover the end-to-end behaviour: INIT resets, timeouts alternate
    OFF/ON, buttons change nothing, and a named state never reaches the
    failing assertion.
  - The class `BlinkyButtonLoop` runs the handler on the loop and the time
    event. Its `Dispatch`, `Step` and `RunUntilBlocked` are proved against
    `Apply` and `Run`. `Boot` is `main`'s configuration.

A failed `configASSERT` halts the system in the source. In the model, the
method that reaches it returns `ok == false`, with the state as the source
leaves it at that point. The receive in the loop body waits forever on an
empty queue; `Receive` then returns `None` and changes nothing.

The handler passes `200 / portTICK_RATE_MS` and `800 / portTICK_RATE_MS` to
`time_event_arm`, which divides by the tick period again. The model keeps the
double division, with one tick-period parameter (`tickPeriodMs`). The lemma
`TimeEvents.DoubleDivisionNeverLonger` proves three things:
- The armed period is never longer than with a single division.
- It is the same with a 1 ms tick.
- It is strictly shorter when the tick is 2 ms or longer and the duration
  spans at least that many ticks.

`PhasesAtTenMillisecondTick` works one case through: with a 10 ms tick the
phases last 20 ms and 80 ms.

## Model

| member | source | states |
|---|---|---|
| `Events.UserSignalsAreNotInit` | Event_Loop/Event.h:15-18 | a signal at or above `USER_SIG` is never `INIT_SIG`, the signal of the initial event |
| `Events.TimerType.AutoReload` | Event_Loop/Event.h:20-23 | the type flag is an auto-reload setting that is true exactly for the periodic type |
| `Loops.StackDepth` | Event_Loop/Event.c:37-38 | the thread's stack depth is the number of whole stack words that fit in the supplied stack size |
| `Loops.DispatchOrderIsPostOrder` | Event_Loop/Event.c:20-31 | under the delivery invariant, the events dispatched after INIT are a prefix of the posted ones and the queue holds the rest (FIFO); when the queue is empty, everything posted has been dispatched, after INIT |
| `Loops.InitDispatchedExactlyOnce` | Event_Loop/Event.c:13-18 | if no producer posts INIT_SIG, the first dispatched event is INIT_SIG and no later one is |
| `Loops.EventLoop.constructor` | Event_Loop/Event.h:40-50 | a zero-initialised handle has no dispatch function, no queue, no thread and an empty history |
| `Loops.EventLoop.Init` | Event_Loop/Event.c:5-7 | binds the dispatch function; its frame allows nothing else in the handle to change |
| `Loops.EventLoop.Start` | Event_Loop/Event.c:35-58 | the queue exists exactly when creation succeeds, and its capacity is then `queue_len`; the thread gets stack depth `stack_size / sizeof(StackType_t)` and priority `priority + tskIDLE_PRIORITY`; failing either creation is fatal, and a failed queue means no thread is created |
| `Loops.EventLoop.Post` | Event_Loop/Event.c:61-66 | succeeds exactly when the queue has room, and then the queue is the old queue plus the event; on a full queue it is the fatal path and the queue is unchanged (no drop, no partial enqueue); the delivery invariant is kept |
| `Loops.EventLoop.PostFromIsr` | Event_Loop/Event.c:69-74 | the same contract as `Post`, for interrupt context |
| `Loops.EventLoop.TakeInitial` | Event_Loop/Event.c:13-18 | before anything is received, the loop body dispatches the synthesised INIT_SIG event once, and it becomes the first entry of the dispatch history |
| `Loops.EventLoop.Receive` | Event_Loop/Event.c:20-27 | takes exactly the head of the queue and appends it to the dispatch history; on an empty queue the thread waits and nothing changes |
| `TimeEvents.TicksFor` | Event_Loop/Event.c:96-99 | the number of whole ticks in the duration, but at least one tick, so an armed period is never zero |
| `TimeEvents.DoubleDivisionNeverLonger` | Event_Loop/Event.c:91-99 | a duration already divided by the tick period and divided again gives a period no longer than a single division: equal with a 1 ms tick, strictly shorter with a longer tick once the duration spans that many ticks |
| `TimeEvents.NewTimer` | Event_Loop/Event.c:86 | the created timer is dormant, has a period of one tick and reloads exactly as the given flag says |
| `TimeEvents.ChangePeriod` | Event_Loop/Event.c:101-112 | changing the period (re)starts the timer with that period and keeps the reload flag |
| `TimeEvents.Stop` | Event_Loop/Event.c:116-131 | stopping leaves the timer dormant with its period and reload flag |
| `TimeEvents.StopIsIdempotent` | Event_Loop/Event.c:116-131 | disarming twice is disarming once, and disarming an idle timer changes nothing |
| `TimeEvents.ArmedPeriodIsPositive` | Event_Loop/Event.c:96-112 | after arming, the timer is running with a period of at least one tick |
| `TimeEvents.TimeEvent.constructor` | Event_Loop/Event.h:67-73 | a zero-initialised time event has signal 0, no owner, no timer and the one-shot type |
| `TimeEvents.TimeEvent.AsEvent` | Event_Loop/Event.h:67-68 | a time event, seen as an event, carries its own signal |
| `TimeEvents.TimeEvent.Init` | Event_Loop/Event.c:81-88 | sets the signal and the owning loop and creates a dormant timer whose reload flag is the time event's type |
| `TimeEvents.TimeEvent.Arm` | Event_Loop/Event.c:91-113 | (re)starts the timer with period `TicksFor(millisec)`, with the same effect in interrupt and task context |
| `TimeEvents.TimeEvent.Disarm` | Event_Loop/Event.c:116-131 | stops the timer, with the same effect in interrupt and task context |
| `TimeEvents.TimeEvent.Expire` | Event_Loop/Event.c:140-148 | on expiry the timer is updated as `Fire` says, and the time event's own signal is posted to its owner with `Post`'s contract; the owner's invariant is kept |
| `BlinkyButton.ApplicationSignalsAreUserSignals` | Event_Loop/Example.c:5-9 | TIMEOUT, BUTTON_PRESSED and BUTTON_RELEASED are user signals and all different |
| `BlinkyButton.Handle` | Event_Loop/Example.c:22-77 | the handler fails exactly on a non-INIT signal in an unnamed state; otherwise it ends in OFF or ON, and it arms exactly on INIT and on a timeout; when it does not arm, the state is unchanged; INIT arms 200 ms and enters OFF; a timeout flips the state and arms 200 ms leaving OFF or 800 ms leaving ON |
| `BlinkyButton.InitResets` | Event_Loop/Example.c:25-30 | INIT_SIG enters OFF and arms 200 ms whatever the prior state |
| `BlinkyButton.TimeoutsAlternate` | Event_Loop/Example.c:34-60 | n successive timeouts from OFF or ON alternate the state (n even returns to the start), and leave the timer armed with the duration of the last transition |
| `BlinkyButton.ButtonsChangeNothing` | Event_Loop/Example.c:42-67 | from OFF or ON, any sequence of button (or other non-INIT, non-timeout) signals leaves the state and the timer unchanged |
| `BlinkyButton.NeverFaults` | Event_Loop/Example.c:71-74 | from OFF or ON no sequence of signals reaches the failing assertion, and the state stays OFF or ON |
| `BlinkyButton.PhasesAtOneMillisecondTick` | Event_Loop/Example.c:38-56 | with a 1 ms tick, ON is armed for 200 ticks and OFF for 800 |
| `BlinkyButton.PhasesAtTenMillisecondTick` | Event_Loop/Example.c:56 | with a 10 ms tick, the double division arms ON for 2 ticks and OFF for 8 |
| `BlinkyButton.BlinkyButtonLoop.constructor` | Event_Loop/Example.c:86-89 | the static instance starts with an unbound loop, state OFF (zero) and an uninitialised one-shot time event |
| `BlinkyButton.BlinkyButtonLoop.Init` | Event_Loop/Example.c:79-84 | binds the handler, makes the time event one-shot and initialises it with TIMEOUT_SIG and the object's own loop, so its timer is dormant and does not reload |
| `BlinkyButton.BlinkyButtonLoop.Dispatch` | Event_Loop/Example.c:22-77 | the new state and timer are exactly what `Apply` gives for the old ones; it fails only where `Apply` fails, and then changes nothing |
| `BlinkyButton.BlinkyButtonLoop.DispatchInitial` | Event_Loop/Event.c:17-18 | the initial dispatch puts the object in OFF as `Apply` of INIT_SIG says, and the dispatch history is just INIT |
| `BlinkyButton.BlinkyButtonLoop.Step` | Event_Loop/Event.c:20-31 | one iteration takes the head of the queue and the object changes as `Apply` of its signal says; a failed dispatch (the assertion of an unnamed state) leaves the state and the timer as they were; on an empty queue the thread waits and nothing changes |
| `BlinkyButton.BlinkyButtonLoop.RunUntilBlocked` | Event_Loop/Event.c:10-32 | the loop body, up to its first wait, dispatches INIT and then every queued event in order (the history is INIT followed by the old queue); the object ends where `Run` over the dispatched signals says, in OFF or ON, without failing |
| `BlinkyButton.Boot` | Event_Loop/Example.c:92-107 | after init and start, the loop has a 10-slot queue, a thread of priority 1 whose stack depth is `configMINIMAL_STACK_SIZE` words, and a dormant one-shot time event; nothing fails |

## Left out

- `Examples/Queue.c`, `Examples/Tasks.c`, `Examples/Semaphores.c`, `Examples/Timers.c` and `Examples/Mutex.c`: tutorial demos of scheduler primitives, not part of the runtime.
- The scheduler itself is not modelled: threads, priorities as scheduling, context switches, `xPortIsInsideInterrupt`, the yield flag and `portEND_SWITCHING_ISR`. The interrupt/task choice is a boolean input with the same state effect in both branches.
- Loops.EventLoop.PostFromIsr: the `pxHigherPriorityTaskWoken` yield request is not modelled, because it depends only on the scheduler.
- TimeEvents.TimeEvent.Arm: a timer command rejected by the timer service (a status other than `pdPASS`), which the source treats as fatal, is not modelled. The timer service's command queue is outside the core: the model applies the command at once, while the source queues it to the timer service task and it takes effect when that task runs. It also requires an initialised time event; arming before `time_event_init` would hand a NULL timer handle to the scheduler, and no call in the core does that.
- TimeEvents.TimeEvent.Disarm: the same for a rejected stop command, the same deferred effect of the command, and the same requirement of an initialised time event.
- Expiry timing, jitter and tick counting: `Expire` is an external step that requires a running timer. `TimeEvents.Fire` states what the timer service is assumed to do: a one-shot timer goes dormant after firing and a periodic one stays running.
- The success conditions of queue and thread creation are assumed of the scheduler. The queue needs storage and a non-zero length. The thread needs stack storage.
- Loops.EventLoop.Post: requires a created queue. Posting to a loop that was never started would pass a NULL queue to the scheduler, whose own check is outside the core.
- The priority's upper bound (`configMAX_PRIORITIES`) is checked by the scheduler and is not modelled.
- `sizeof(StackType_t)` is fixed at 4 bytes, as on the Cortex-M ports.
- The tick period: one parameter `tickPeriodMs` stands for both `portTICK_PERIOD_MS` and its legacy alias `portTICK_RATE_MS`. It is assumed to be at least 1 ms (`configTICK_RATE_HZ <= 1000`); at a faster tick rate the integer `1000 / configTICK_RATE_HZ` is 0 and the source's tick conversions divide by zero, which is not modelled.
- Events are values, not references. No code in the core writes an event after posting it, so the dispatched signal is the same either way. `configASSERT(me)` and `configASSERT(event != NULL)` therefore always hold in the model.
- Halting after a failed assertion: callers receive `ok == false`, but nothing stops them from calling on.
- The call through the dispatch function pointer: the loop records the handler's name, and the one handler in the core (`BlinkyButtonLoop.Dispatch`) is called by its object's loop-body methods.
- BlinkyButton.BlinkyButtonLoop.RunUntilBlocked: assumes nothing is posted while it drains the queue. Interleavings are expressed by calling `Step` between `Post`/`Expire` calls.
- Static storage details (`StaticTask_t`, `StaticQueue_t`, `StaticTimer_t`, buffers), the unused `opt` field and the `GET_TIME_EVENT_HEAD` offset macro, which an explicit back-reference replaces.
- `BSP_init`, `vTaskStartScheduler`, the LED and button hardware, `Q_ASSERT`/`Q_onAssert`, and `time_event_tickFromISR`, which is declared but never defined.
