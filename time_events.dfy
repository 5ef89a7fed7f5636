/** Time events: an event that owns a software timer and, when the timer
    expires, posts itself to the loop that owns it.

    The software timer belongs to the scheduler's timer service; only the part
    of it the time event observes is modelled, as a record.
 */
module TimeEvents {
  import opened Events
  import opened Loops

  /** The software timer as the time event sees it: whether it is running,
      its period in ticks and whether it reloads after expiring. */
  datatype Timer = Timer(running: bool, period: nat, autoReload: bool)

  /** A timer as created for a time event: dormant, with a period of one tick. */
  function NewTimer(autoReload: bool): (t: Timer)
    ensures !t.running && t.period == 1 && t.autoReload == autoReload
  {
    Timer(false, 1, autoReload)
  }

  /** Changing a timer's period also (re)starts it; the reload flag stays. */
  function ChangePeriod(t: Timer, ticks: nat): (r: Timer)
    ensures r.running && r.period == ticks && r.autoReload == t.autoReload
  {
    t.(running := true, period := ticks)
  }

  /** Stopping a timer makes it dormant and keeps its settings. */
  function Stop(t: Timer): (r: Timer)
    ensures !r.running && r.period == t.period && r.autoReload == t.autoReload
  {
    t.(running := false)
  }

  /** What the timer service does to a running timer when it expires: a
      one-shot timer goes dormant, a periodic one stays running with the same
      period. */
  function Fire(t: Timer): (r: Timer)
    requires t.running
    ensures r.running <==> t.autoReload
    ensures r.period == t.period && r.autoReload == t.autoReload
  {
    t.(running := t.autoReload)
  }

  /** Ticks for a duration in milliseconds, given the tick period in
      milliseconds: the whole number of ticks the duration spans, but never
      less than one tick. */
  function TicksFor(millisec: Uint32, tickPeriodMs: nat): (ticks: Uint32)
    requires tickPeriodMs >= 1
    ensures ticks >= 1
    ensures millisec >= tickPeriodMs ==> ticks * tickPeriodMs <= millisec < (ticks + 1) * tickPeriodMs
    ensures millisec < tickPeriodMs ==> ticks == 1
  {
    var t := millisec / tickPeriodMs;
    DivisionBounds(millisec, tickPeriodMs);
    if t == 0 then 1 else t
  }

  lemma DivisionBounds(x: nat, p: nat)
    requires p >= 1
    ensures (x / p) * p <= x < (x / p + 1) * p
  {
    assert x == (x / p) * p + x % p;
  }

  /** Stopping is idempotent: disarming an idle time event changes nothing. */
  lemma StopIsIdempotent(t: Timer)
    ensures Stop(Stop(t)) == Stop(t)
    ensures !t.running ==> Stop(t) == t
  {
  }

  /** Arming always leaves the timer running with a period of at least one
      tick, and re-arming only the last period counts. */
  lemma ArmedPeriodIsPositive(t: Timer, millisec: Uint32, tickPeriodMs: nat)
    requires tickPeriodMs >= 1
    ensures ChangePeriod(t, TicksFor(millisec, tickPeriodMs)).running
    ensures ChangePeriod(t, TicksFor(millisec, tickPeriodMs)).period >= 1
  {
  }

  lemma DivisionShrinks(x: nat, p: nat)
    requires p >= 1
    ensures x / p <= x
    ensures p >= 2 && x >= 1 ==> x / p < x
  {
    var q := x / p;
    DivisionBounds(x, p);
    ProductAtLeast(q, p);
  }

  lemma ProductAtLeast(q: nat, p: nat)
    requires p >= 1
    ensures q * p >= q
    ensures p >= 2 ==> q * p >= 2 * q
  {
    assert q * p == q * (p - 1) + q;
    if p >= 2 {
      assert q * (p - 1) == q * (p - 2) + q;
    }
  }

  /** A duration that has already been divided by the tick period, as the
      blinky handler passes it, is divided again here. The result is never a
      longer period than dividing once, is the same when a tick is 1 ms, and
      is strictly shorter when the tick is longer and the duration spans at
      least `tickPeriodMs` ticks. */
  lemma {:induction false} DoubleDivisionNeverLonger(m: Uint32, tickPeriodMs: nat)
    requires tickPeriodMs >= 1
    ensures TicksFor(m / tickPeriodMs, tickPeriodMs) <= TicksFor(m, tickPeriodMs)
    ensures tickPeriodMs == 1 ==> TicksFor(m / tickPeriodMs, tickPeriodMs) == TicksFor(m, tickPeriodMs)
    ensures tickPeriodMs >= 2 && m / tickPeriodMs >= tickPeriodMs ==>
              TicksFor(m / tickPeriodMs, tickPeriodMs) < TicksFor(m, tickPeriodMs)
  {
    var p := tickPeriodMs;
    var once := m / p;
    DivisionShrinks(m, p);
    DivisionShrinks(once, p);
    if p >= 2 && once >= p {
      DivisionBounds(once, p);
      assert once / p >= 1;
    }
  }

  /** `time_event_t`: the event part (its signal), the owning loop, the
      timer and the one-shot/periodic flag. The timer's callback is a method
      of the time event, so the time event is found from its timer by an
      explicit back-reference rather than by address arithmetic. */
  class TimeEvent {
    var sig: Signal
    var owner: EventLoop?
    var timer: Option<Timer>
    var kind: TimerType

    /** A time event in zero-initialised static storage. */
    constructor ()
      ensures sig == INIT_SIG && owner == null && timer.None? && kind == OneShot
    {
      sig := INIT_SIG;
      owner := null;
      timer := None;
      kind := OneShot;
    }

    /** The event a time event delivers: itself, seen as an event. */
    function AsEvent(): (e: Event)
      reads this
      ensures e.sig == sig
    {
      Event(sig)
    }

    /** `time_event_init`: binds the signal and the owning loop and creates a
        dormant timer whose reload flag is the time event's type. */
    method Init(s: Signal, loop: EventLoop)
      modifies this`sig, this`owner, this`timer
      ensures sig == s && owner == loop
      ensures timer == Some(NewTimer(kind.AutoReload()))
    {
      sig := s;
      owner := loop;
      timer := Some(NewTimer(kind.AutoReload()));
    }

    /** `time_event_arm`: converts the duration to ticks (at least one) and
        (re)starts the timer with that period, from an interrupt or a task
        alike. */
    method Arm(millisec: Uint32, inIsr: bool, tickPeriodMs: nat)
      requires timer.Some? && tickPeriodMs >= 1
      modifies this`timer
      ensures timer == Some(ChangePeriod(old(timer).value, TicksFor(millisec, tickPeriodMs)))
    {
      var ticks := TicksFor(millisec, tickPeriodMs);
      if inIsr {
        timer := Some(ChangePeriod(timer.value, ticks));
      } else {
        timer := Some(ChangePeriod(timer.value, ticks));
      }
    }

    /** `time_event_disarm`: stops the timer, from an interrupt or a task alike. */
    method Disarm(inIsr: bool)
      requires timer.Some?
      modifies this`timer
      ensures timer == Some(Stop(old(timer).value))
    {
      if inIsr {
        timer := Some(Stop(timer.value));
      } else {
        timer := Some(Stop(timer.value));
      }
    }

    /** Expiry of a running timer: the timer service updates the timer as
        `Fire` says and calls `time_event_callback`, which posts this time
        event to its owner from task context. */
    method Expire() returns (ok: bool)
      requires timer.Some? && timer.value.running
      requires owner != null && owner.Valid() && owner.queueCreated
      modifies this`timer, owner`queue, owner`posted
      ensures timer == Some(Fire(old(timer).value))
      ensures owner.Valid()
      ensures ok <==> |old(owner.queue)| < owner.capacity
      ensures owner.queue == if ok then old(owner.queue) + [AsEvent()] else old(owner.queue)
      ensures owner.posted == if ok then old(owner.posted) + [AsEvent()] else old(owner.posted)
    {
      timer := Some(Fire(timer.value));
      ok := owner.Post(AsEvent());
    }
  }
}
