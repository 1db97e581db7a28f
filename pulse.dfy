/** The flash pin pulse sequence both dispatchers run: `num_pulses` cycles of
    on, 0.2 s, off, 0.3 s, abandoned at the first pin call that raises. */
module Pulse {
  import opened Values
  import opened Effects

  const OnMs: nat := 200
  const OffMs: nat := 300

  /** Where the pin driver raises: never, or at its `call`-th on/off call
      (counted from 0 within one sequence; even calls are `on()`, odd `off()`). */
  datatype PinFault = Healthy | FailsAt(call: nat, e: Exc)

  /** The injected behaviour of `machine.Pin(FLASH_PIN, machine.Pin.OUT)` and of its calls. */
  datatype PinDriver = PinDriver(initError: Option<Exc>, fault: PinFault)

  /** The error the driver raises at one call, if any. */
  function FaultAt(fault: PinFault, call: nat): Option<Exc>
  {
    if fault.FailsAt? && fault.call == call then Some(fault.e) else None
  }

  /** One complete on/off cycle. */
  function Cycle(): seq<Event>
  {
    [Pin(true), Sleep(OnMs), Pin(false), Sleep(OffMs)]
  }

  /** `k` complete cycles. */
  function Cycles(k: nat): seq<Event>
  {
    if k == 0 then [] else Cycles(k - 1) + Cycle()
  }

  /** What a pulse sequence did and, if it was abandoned, the error. */
  datatype PulseOutcome = PulseOutcome(events: seq<Event>, failure: Option<Exc>)

  /** The specification of the `for i in range(num_pulses)` loop. */
  function PulseRun(n: nat, fault: PinFault): PulseOutcome
  {
    if fault.FailsAt? && fault.call < 2 * n then
      PulseOutcome(Cycles(fault.call / 2) + (if fault.call % 2 == 1 then [Pin(true), Sleep(OnMs)] else []),
                   Some(fault.e))
    else
      PulseOutcome(Cycles(n), None)
  }

  /** The levels driven by `k` cycles alternate on, off, on, off, ... */
  predicate Alternating(trace: seq<bool>)
  {
    forall i :: 0 <= i < |trace| ==> trace[i] == (i % 2 == 0)
  }

  lemma CycleShape()
    ensures PinTrace(Cycle()) == [true, false]
    ensures Sleeps(Cycle()) == [OnMs, OffMs]
    ensures forall t :: Sent(Cycle(), t) == []
  {
    var c := Cycle();
    assert c[1..][1..][1..][1..] == [];
    NoPublishSendsNothing(c);
  }

  lemma {:induction false} CyclesShape(k: nat)
    ensures |PinTrace(Cycles(k))| == 2 * k && Alternating(PinTrace(Cycles(k)))
    ensures forall t :: Sent(Cycles(k), t) == []
    ensures |Sleeps(Cycles(k))| == 2 * k
    ensures forall i :: 0 <= i < 2 * k ==> Sleeps(Cycles(k))[i] == (if i % 2 == 0 then OnMs else OffMs)
  {
    if k > 0 {
      CyclesShape(k - 1);
      CycleShape();
      PinTraceAppend(Cycles(k - 1), Cycle());
      SleepsAppend(Cycles(k - 1), Cycle());
      forall t ensures Sent(Cycles(k), t) == [] {
        SentAppend(Cycles(k - 1), Cycle(), t);
      }
    }
  }

  /** The sequence succeeds iff no pin call among its `2 * n` raises. */
  lemma PulseSucceedsIff(n: nat, fault: PinFault)
    ensures PulseRun(n, fault).failure.None? <==> forall c :: 0 <= c < 2 * n ==> FaultAt(fault, c).None?
  {
    if fault.FailsAt? && fault.call < 2 * n {
      assert FaultAt(fault, fault.call).Some?;
    }
  }

  /** On success the pin went through exactly `n` on/off pairs with the 0.2 s
      and 0.3 s pauses, and nothing was published. */
  lemma PulseSuccessTrace(n: nat, fault: PinFault)
    requires PulseRun(n, fault).failure.None?
    ensures var p := PulseRun(n, fault).events;
      |PinTrace(p)| == 2 * n && Alternating(PinTrace(p))
      && |Sleeps(p)| == 2 * n
      && (forall i :: 0 <= i < 2 * n ==> Sleeps(p)[i] == (if i % 2 == 0 then OnMs else OffMs))
      && forall t :: Sent(p, t) == []
  {
    CyclesShape(n);
  }

  /** On failure the pin calls before the failing one, and only those, took
      effect: fewer than `2 * n` levels were driven. If `off()` raised, the
      flash is left on. */
  lemma PulseFailureTrace(n: nat, fault: PinFault)
    requires PulseRun(n, fault).failure.Some?
    ensures fault.FailsAt? && PulseRun(n, fault).failure == Some(fault.e)
    ensures var trace := PinTrace(PulseRun(n, fault).events);
      |trace| == fault.call < 2 * n && Alternating(trace)
      && (trace != [] ==> trace[|trace| - 1] == (fault.call % 2 == 1))
    ensures forall t :: Sent(PulseRun(n, fault).events, t) == []
  {
    var k := fault.call / 2;
    CyclesShape(k);
    var tail: seq<Event> := if fault.call % 2 == 1 then [Pin(true), Sleep(OnMs)] else [];
    PinTraceAppend(Cycles(k), tail);
    NoPublishSendsNothing(tail);
    forall t ensures Sent(PulseRun(n, fault).events, t) == [] {
      SentAppend(Cycles(k), tail, t);
    }
    var trace := PinTrace(PulseRun(n, fault).events);
    if fault.call % 2 == 1 {
      assert tail[1..] == [Sleep(OnMs)] && tail[1..][1..] == [];
      assert PinTrace(tail[1..]) == [];
      assert PinTrace(tail) == [true];
    } else {
      assert PinTrace(tail) == [];
    }
    assert trace == PinTrace(Cycles(k)) + PinTrace(tail);
  }
}
