/*
 * What the gating state machine of counter.c guarantees: the gate
 * constants, the effect of each interrupt, the count-down of the gate, the
 * freezing of the counts once data is ready, the restart, and the count
 * one measurement cycle reports.
 */
module CounterProofs {
  import opened Counter

  /** 2^24: the range of freqCounter:TCNT1 taken together. */
  const COUNT_RANGE: nat := 0x100_0000

  /** Timer 2 ticks from a restart until the gate closes, as the code behaves. */
  const GATE_TICKS: nat := (ONE_SEC_GATE + 1) * 0x100

  /** freqCounter and TCNT1 read together as one 24-bit count. */
  function Counted(s: State): nat
  {
    s.freqCounter * 0x1_0000 + s.tcnt1
  }

  /** The gate is open: both timers count, their interrupts are enabled, no data yet. */
  predicate Gating(s: State)
  {
    Timer1Running(s) && Timer2Running(s) && s.toie1 && s.toie2 && !s.dataReady &&
    (s.lastSec || s.secTimer >= 1)
  }

  /** The gate has closed: both timers stopped and the result waiting for the main loop. */
  predicate Stopped(s: State)
  {
    !Timer1Running(s) && !Timer2Running(s) && s.dataReady && !s.lastSec
  }

  /** Timer 2 ticks until the overflow that closes the gate. */
  function TicksLeft(s: State): nat
    requires Gating(s)
  {
    if s.lastSec then 0x100 - s.tcnt2 else (s.secTimer + 1) * 0x100 - s.tcnt2
  }

  /** The state right after main's start-up or the loop's restart. */
  predicate Armed(s: State)
  {
    Gating(s) && TicksLeft(s) == GATE_TICKS && Counted(s) == 0
  }

  function Ticks(events: seq<Event>): nat
    decreases |events|
  {
    if events == [] then 0
    else (if events[0] == TickEvent then 1 else 0) + Ticks(events[1..])
  }

  /** The pulses among the events that come before the n-th tick. */
  function PulsesInGate(events: seq<Event>, n: nat): nat
    decreases |events|
  {
    if n == 0 || events == [] then 0
    else if events[0] == PulseEvent then 1 + PulsesInGate(events[1..], n)
    else PulsesInGate(events[1..], n - 1)
  }

  /** The Timer 2 overflow interrupt run k times in a row. */
  function Overflows(s: State, k: nat): State
  {
    if k == 0 then s else Timer2Overflow(Overflows(s, k - 1))
  }

  // ---------------------------------------------------------------------
  // Constants

  /** 76 full overflows plus a residual of 256 - 182 = 74 ticks: 19530 ticks, one short of a second. */
  lemma GateConstants()
    ensures ONE_SEC_GATE == 76 && LAST_SEC == 182
    ensures ONE_SEC_GATE * 0x100 + (0x100 - LAST_SEC) == 19530
    ensures TICKS_PER_SECOND == 19531
    ensures TICKS_PER_SECOND - (ONE_SEC_GATE * 0x100 + (0x100 - LAST_SEC)) == 1
  {
  }

  /**
   * Because the preload goes to TCNT0, the last Timer 2 interval is a full
   * 256 ticks: the gate as the code runs it lasts 77 * 256 ticks.
   */
  lemma GateAsWritten()
    ensures GATE_TICKS == 19712
    ensures GATE_TICKS - (ONE_SEC_GATE * 0x100 + (0x100 - LAST_SEC)) == 0x100 - (0x100 - LAST_SEC)
  {
  }

  // ---------------------------------------------------------------------
  // The interrupt service routines

  /** A Timer 1 overflow adds one to freqCounter, modulo 256, and changes nothing else. */
  lemma Timer1OverflowCounts(s: State)
    ensures Timer1Overflow(s).freqCounter == (s.freqCounter + 1) % 0x100
    ensures Timer1Overflow(s).(freqCounter := s.freqCounter) == s
  {
  }

  /** A Timer 2 overflow before the last interval counts secTimer down. */
  lemma Timer2OverflowCounting(s: State)
    requires !s.lastSec
    ensures var r := Timer2Overflow(s);
      r.secTimer == (s.secTimer - 1) % 0x100 &&
      (r.lastSec <==> r.secTimer == 0) &&
      (r.lastSec ==> r.tcnt0 == LAST_SEC) &&
      (!r.lastSec ==> r.tcnt0 == s.tcnt0) &&
      r.dataReady == s.dataReady && r.freqCounter == s.freqCounter &&
      r.tcnt1 == s.tcnt1 && r.tcnt2 == s.tcnt2 &&
      r.tccr1b == s.tccr1b && r.tccr2b == s.tccr2b
  {
  }

  /** The Timer 2 overflow that ends the last interval stops both timers and raises dataReady. */
  lemma Timer2OverflowLastSec(s: State)
    requires s.lastSec
    ensures var r := Timer2Overflow(s);
      r.tccr1b == 0 && r.tccr2b == 0 && r.dataReady && !r.lastSec &&
      r.secTimer == s.secTimer && r.freqCounter == s.freqCounter &&
      r.tcnt1 == s.tcnt1 && r.tcnt2 == s.tcnt2
  {
  }

  /**
   * Counting down from secTimer: each of the first secTimer overflows
   * decrements it, only the last of them sets lastSec, none sets dataReady.
   */
  lemma {:induction false} CountDown(s: State, k: nat)
    requires !s.lastSec && 1 <= s.secTimer && k <= s.secTimer
    ensures var r := Overflows(s, k);
      r.secTimer == s.secTimer - k && (r.lastSec <==> k == s.secTimer) &&
      r.dataReady == s.dataReady && r.freqCounter == s.freqCounter &&
      r.tccr1b == s.tccr1b && r.tccr2b == s.tccr2b
  {
    if k > 0 {
      CountDown(s, k - 1);
    }
  }

  /**
   * From the restart values, 76 overflows leave lastSec set and no data;
   * the 77th stops both timers and raises dataReady; no earlier one does.
   */
  lemma GateSequence(s: State, k: nat)
    requires s.secTimer == ONE_SEC_GATE && !s.lastSec && !s.dataReady
    requires k <= ONE_SEC_GATE + 1
    ensures Overflows(s, k).dataReady <==> k == ONE_SEC_GATE + 1
    ensures Overflows(s, k).lastSec <==> k == ONE_SEC_GATE
    ensures k == ONE_SEC_GATE + 1 ==>
      !Timer1Running(Overflows(s, k)) && !Timer2Running(Overflows(s, k))
  {
    if k <= ONE_SEC_GATE {
      CountDown(s, k);
    } else {
      CountDown(s, k - 1);
    }
  }

  // ---------------------------------------------------------------------
  // Events

  /** With both timers stopped no event changes anything. */
  lemma {:induction false} Frozen(s: State, events: seq<Event>)
    requires !Timer1Running(s) && !Timer2Running(s)
    ensures Run(s, events) == s
    decreases |events|
  {
    if events != [] {
      Frozen(Step(s, events[0]), events[1..]);
    }
  }

  /** Once dataReady is set by the gate, pulses and ticks leave every count alone. */
  lemma FrozenOnceReady(s: State, events: seq<Event>)
    requires Stopped(s)
    ensures Run(s, events) == s && Stopped(Run(s, events))
  {
    Frozen(s, events);
  }

  /** A pulse while Timer 1 runs adds one to the 24-bit count and leaves the gate alone. */
  lemma PulseCounts(s: State)
    requires Timer1Running(s) && s.toie1
    ensures Counted(Pulse(s)) == (Counted(s) + 1) % COUNT_RANGE
    ensures Pulse(s).(freqCounter := s.freqCounter, tcnt1 := s.tcnt1) == s
  {
    if s.tcnt1 == 0xFFFF && s.freqCounter == 0xFF {
      assert Counted(s) + 1 == COUNT_RANGE;
    }
  }

  /** A tick while the gate is open brings its end one tick closer. */
  lemma TickAdvances(s: State)
    requires Gating(s)
    ensures Counted(Tick(s)) == Counted(s)
    ensures TicksLeft(s) > 1 ==> Gating(Tick(s)) && TicksLeft(Tick(s)) == TicksLeft(s) - 1
    ensures TicksLeft(s) == 1 ==> Stopped(Tick(s))
  {
  }

  lemma ModAddLeft(a: nat, b: nat)
    ensures (a % COUNT_RANGE + b) % COUNT_RANGE == (a + b) % COUNT_RANGE
  {
    var q := a / COUNT_RANGE;
    var r := a % COUNT_RANGE;
    assert a + b == (r + b) + q * COUNT_RANGE;
    var q' := (r + b) / COUNT_RANGE;
    var r' := (r + b) % COUNT_RANGE;
    assert a + b == (q + q') * COUNT_RANGE + r';
  }

  /**
   * What running the events from an open gate does: the gate closes
   * exactly after TicksLeft ticks, and the count grows by the pulses that
   * arrive before that, modulo 2^24.
   */
  predicate GateOutcome(s: State, events: seq<Event>)
    requires Gating(s)
  {
    var t := Run(s, events);
    (Ticks(events) < TicksLeft(s) ==> Gating(t) && TicksLeft(t) == TicksLeft(s) - Ticks(events)) &&
    (Ticks(events) >= TicksLeft(s) ==> Stopped(t)) &&
    Counted(t) == (Counted(s) + PulsesInGate(events, TicksLeft(s))) % COUNT_RANGE
  }

  /** Every sequence of events from an open gate has the outcome above. */
  lemma {:induction false} RunGate(s: State, events: seq<Event>)
    requires Gating(s)
    ensures GateOutcome(s, events)
    decreases |events|, 1
  {
    if events == [] {
      assert Counted(s) < COUNT_RANGE;
    } else if events[0] == PulseEvent {
      RunGatePulse(s, events);
    } else {
      RunGateTick(s, events);
    }
  }

  lemma {:induction false} RunGatePulse(s: State, events: seq<Event>)
    requires Gating(s) && events != [] && events[0] == PulseEvent
    ensures GateOutcome(s, events)
    decreases |events|, 0
  {
    var n := TicksLeft(s);
    var rest := events[1..];
    assert Run(s, events) == Run(Pulse(s), rest);
    assert Ticks(events) == Ticks(rest);
    assert PulsesInGate(events, n) == 1 + PulsesInGate(rest, n);
    PulseCounts(s);
    RunGate(Pulse(s), rest);
    ModAddLeft(Counted(s) + 1, PulsesInGate(rest, n));
  }

  lemma {:induction false} RunGateTick(s: State, events: seq<Event>)
    requires Gating(s) && events != [] && events[0] == TickEvent
    ensures GateOutcome(s, events)
    decreases |events|, 0
  {
    var n := TicksLeft(s);
    var rest := events[1..];
    assert Run(s, events) == Run(Tick(s), rest);
    assert Ticks(events) == 1 + Ticks(rest);
    assert PulsesInGate(events, n) == PulsesInGate(rest, n - 1);
    TickAdvances(s);
    if n > 1 {
      RunGate(Tick(s), rest);
    } else {
      Frozen(Tick(s), rest);
      assert PulsesInGate(rest, 0) == 0;
      assert Counted(s) < COUNT_RANGE;
    }
  }

  // ---------------------------------------------------------------------
  // main()

  /** The restart values do not depend on what the previous cycle left behind. */
  lemma RestartResets(s: State)
    ensures var r := Restart(s);
      r.secTimer == ONE_SEC_GATE && r.freqCounter == 0 && r.tcnt1 == 0 && r.tcnt2 == 0 &&
      r.tccr1b == 6 && r.tccr2b == 7 && r.toie1 && r.toie2 &&
      r.dataReady == s.dataReady && r.lastSec == s.lastSec && r.tcnt0 == s.tcnt0
    ensures Restart(Restart(s)) == Restart(s)
  {
  }

  /** main's start-up opens a full gate with the count at zero, from any state. */
  lemma StartupArms(s: State)
    ensures Armed(Startup(s))
  {
  }

  /**
   * A loop pass that finds the gate closed reports exactly one value,
   * re-opens a full gate with the count at zero, and the next pass reports
   * nothing until the new gate closes.
   */
  lemma PollRearms(s: State)
    requires Stopped(s)
    ensures Poll(s).1.Some?
    ensures Armed(Poll(s).0)
    ensures Poll(Poll(s).0) == (Poll(s).0, None)
  {
  }

  /** A loop pass that finds no data changes nothing. */
  lemma PollIdle(s: State)
    requires !s.dataReady
    ensures Poll(s) == (s, None)
  {
  }

  lemma SplitCount(n: nat, q: uint8, r: uint16)
    requires q * 0x1_0000 + r == n % COUNT_RANGE
    ensures r == n % 0x1_0000 && q == (n % COUNT_RANGE) / 0x1_0000
  {
    var m := n % COUNT_RANGE;
    assert n == (n / COUNT_RANGE) * COUNT_RANGE + m;
    assert n == ((n / COUNT_RANGE) * 0x100 + q) * 0x1_0000 + r;
  }

  /**
   * One measurement cycle.  From the state a start-up or restart leaves,
   * data is ready exactly when GATE_TICKS ticks have passed; the value the
   * next loop pass reports is built from the pulses P that came before the
   * gate closed: it is P itself when P < 2^24 and P mod 65536 < 32768, and
   * 65536 less (modulo 2^32) when P mod 65536 >= 32768.
   */
  lemma {:induction false} MeasurementCycle(s: State, events: seq<Event>)
    requires Armed(s)
    ensures var t := Run(s, events);
      var p := PulsesInGate(events, GATE_TICKS);
      (t.dataReady <==> Ticks(events) >= GATE_TICKS) &&
      (t.dataReady ==>
        (Stopped(t) && Poll(t).1 == Some(Frequency((p % COUNT_RANGE) / 0x1_0000, p % 0x1_0000))))
  {
    RunGate(s, events);
    var t := Run(s, events);
    var p := PulsesInGate(events, GATE_TICKS);
    SplitCount(p, t.freqCounter, t.tcnt1);
  }

  /** What the main loop reports for a count below 2^24 kept in freqCounter and TCNT1. */
  function Reported(p: nat): int
  {
    if p % 0x1_0000 < 0x8000 then p else (p - 0x1_0000) % 0x1_0000_0000
  }

  /** The main loop's combination of a count below 2^24 split into freqCounter and TCNT1. */
  lemma FrequencyOfCount(p: nat)
    requires p < COUNT_RANGE
    ensures Frequency((p % COUNT_RANGE) / 0x1_0000, p % 0x1_0000) == Reported(p)
  {
    var q, r := p / 0x1_0000, p % 0x1_0000;
    assert p % COUNT_RANGE == p;
    assert p == q * 0x1_0000 + r;
    if r >= 0x8000 && q == 0 {
      assert p - 0x1_0000 + 0x1_0000_0000 == Frequency(q, r);
    }
  }

  /**
   * The reported value is the pulse count when that is below 2^24 and
   * TCNT1 ends below 32768, and 65536 less, modulo 2^32, when TCNT1 ends
   * at 32768 or above.
   */
  lemma ReportsPulseCount(s: State, events: seq<Event>)
    requires Armed(s)
    requires Ticks(events) >= GATE_TICKS
    requires PulsesInGate(events, GATE_TICKS) < COUNT_RANGE
    ensures Poll(Run(s, events)).1 == Some(Reported(PulsesInGate(events, GATE_TICKS)))
  {
    MeasurementCycle(s, events);
    FrequencyOfCount(PulsesInGate(events, GATE_TICKS));
  }
}
