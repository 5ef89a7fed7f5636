/** The event model of the active-object runtime: signals, the reserved
    signals, events, the timer-type flag and the arguments that start a loop.
 */
module Events {

  datatype Option<+T> = None | Some(value: T)

  /** Fixed-width unsigned integers of the C source. */
  type Uint8 = x: int | 0 <= x < 0x100
  type Uint16 = x: int | 0 <= x < 0x1_0000
  type Uint32 = x: int | 0 <= x < 0x1_0000_0000

  /** `signal_t` is a 16-bit unsigned integer, so every signal lies in 0..65535. */
  type Signal = Uint16

  /** Reserved signals: INIT_SIG is dispatched by the loop itself before it
      enters its receive loop; USER_SIG is the first signal applications own. */
  const INIT_SIG: Signal := 0
  const USER_SIG: Signal := 1

  /** An event is a signal; it is immutable once posted, so the reference the
      queue carries and the value it points to are interchangeable here. */
  datatype Event = Event(sig: Signal)

  /** The event the loop synthesises and dispatches once, before any queued event. */
  const InitialEvent: Event := Event(INIT_SIG)

  /** Whether a signal is one an application may define. */
  predicate IsUserSignal(s: Signal) {
    s >= USER_SIG
  }

  lemma UserSignalsAreNotInit(s: Signal)
    requires IsUserSignal(s)
    ensures s != INIT_SIG && s != InitialEvent.sig
  {
  }

  /** `timer_type_t`: TYPE_ONE_SHOT is pdFALSE and TYPE_PERIODIC is pdTRUE, and
      the value is handed to the timer as its auto-reload setting. */
  datatype TimerType = OneShot | Periodic {
    function AutoReload(): (reload: bool)
      ensures reload <==> this == Periodic
    {
      match this
      case OneShot => false
      case Periodic => true
    }
  }

  /** `event_loop_args_t`. The two buffers are represented by whether the caller
      supplied them (a non-NULL pointer); their contents are never read. */
  datatype LoopArgs = LoopArgs(
    priority: Uint8,
    hasQueueBuffer: bool,
    queueLen: Uint32,
    hasStackBuffer: bool,
    stackSize: Uint32,
    opt: Uint16)

  /** What the scheduler was asked to create for a loop's thread. */
  datatype Thread = Thread(stackDepth: nat, priority: nat)
}
