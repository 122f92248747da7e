/*
 * The gating state machine of an AVR frequency counter, as values.
 *
 * Timer/Counter 1 counts falling edges on the T1 pin, and the byte
 * freqCounter counts its overflows.  Timer/Counter 2 runs from the 1024
 * prescaler tap; its overflow interrupt counts secTimer down to close a
 * one-second gate, after which both timers are stopped and dataReady is
 * raised for the main loop.
 *
 * Each function below is one handler or primitive of counter.c applied to
 * a snapshot of the globals and registers it touches.
 */
module Counter {

  type uint8 = x: int | 0 <= x < 0x100
  type uint16 = x: int | 0 <= x < 0x1_0000
  type uint32 = x: int | 0 <= x < 0x1_0000_0000
  /** avr-gcc's `int` is 16 bits wide. */
  type int16 = x: int | -0x8000 <= x < 0x8000

  /** Timer 2 overflows in one second: 20 MHz / 1024 / 256, in unsigned long arithmetic. */
  const ONE_SEC_GATE: uint8 := 10000000 / 512 / 256
  /** Preload for the 0.29 of an overflow that is left over, in `int` arithmetic. */
  const LAST_SEC: uint8 := 256 - 29 * 256 / 100
  /** Prescaled Timer 2 ticks in one second: 20 MHz / 1024. */
  const TICKS_PER_SECOND: nat := 10000000 / 512

  /** TCCR1B clock select for "external T1 pin, falling edge". */
  const TIMER1_ON: uint8 := 6
  /** TCCR2B clock select for "clk/1024". */
  const TIMER2_ON: uint8 := 7

  datatype Option<T> = None | Some(value: T)

  /**
   * The globals of counter.c (flags.dataReady, flags.lastSec, secTimer,
   * freqCounter) and the parts of the timer registers the program uses:
   * the counts TCNT0/1/2, the control bytes TCCR1B/TCCR2B, and the
   * overflow-interrupt enables TOIE1/TOIE2.
   */
  datatype State = State(
    dataReady: bool,
    lastSec: bool,
    secTimer: uint8,
    freqCounter: uint8,
    tcnt0: uint8,
    tcnt1: uint16,
    tcnt2: uint8,
    tccr1b: uint8,
    tccr2b: uint8,
    toie1: bool,
    toie2: bool)

  /** A timer counts while its clock-select bits CSn2:0 are not all zero. */
  predicate Timer1Running(s: State) { s.tccr1b % 8 != 0 }
  predicate Timer2Running(s: State) { s.tccr2b % 8 != 0 }

  // ---------------------------------------------------------------------
  // Initialisation and on/off primitives

  /** t1_init: Timer 1 stopped, count cleared, overflow interrupt enabled. */
  function T1Init(s: State): (r: State)
    ensures !Timer1Running(r) && r.tcnt1 == 0 && r.toie1
  {
    s.(tccr1b := 0, tcnt1 := 0, toie1 := true)
  }

  /** t2_init: Timer 2 stopped, count cleared, overflow interrupt enabled. */
  function T2Init(s: State): (r: State)
    ensures !Timer2Running(r) && r.tcnt2 == 0 && r.toie2
  {
    s.(tccr2b := 0, tcnt2 := 0, toie2 := true)
  }

  function Timer1Off(s: State): (r: State)
    ensures !Timer1Running(r)
  {
    s.(tccr1b := 0)
  }

  function Timer1On(s: State): (r: State)
    ensures Timer1Running(r)
  {
    s.(tccr1b := TIMER1_ON)
  }

  function Timer2Off(s: State): (r: State)
    ensures !Timer2Running(r)
  {
    s.(tccr2b := 0)
  }

  function Timer2On(s: State): (r: State)
    ensures Timer2Running(r)
  {
    s.(tccr2b := TIMER2_ON)
  }

  // ---------------------------------------------------------------------
  // Reading Timer 1 and combining the counts

  /** The 16-bit pattern x read as a two's complement `int`, as getTimer1 returns it. */
  function Int16(x: uint16): (r: int16)
    ensures (x - r) % 0x1_0000 == 0
    ensures x < 0x8000 <==> r == x
  {
    if x < 0x8000 then x else x - 0x1_0000
  }

  /** Conversion of an integer to the 32-bit `unsigned long`. */
  function ULong(v: int): (r: uint32)
    ensures (v - r) % 0x1_0000_0000 == 0
    ensures 0 <= v < 0x1_0000_0000 ==> r == v
  {
    v % 0x1_0000_0000
  }

  /**
   * The value the main loop computes from freqCounter and getTimer1():
   * `(unsigned long)freqCounter * 65536UL + (unsigned long)getTimer1()`.
   * It is the combined count only while TCNT1 is below 32768; above, the
   * sign extension of getTimer1 makes it 65536 short, modulo 2^32.
   */
  function Frequency(freqCounter: uint8, tcnt1: uint16): (r: uint32)
    ensures tcnt1 < 0x8000 ==> r == freqCounter * 0x1_0000 + tcnt1
    ensures tcnt1 >= 0x8000 && freqCounter > 0 ==> r == freqCounter * 0x1_0000 + tcnt1 - 0x1_0000
    ensures tcnt1 >= 0x8000 && freqCounter == 0 ==> r == 0x1_0000_0000 - 0x1_0000 + tcnt1
  {
    ULong(ULong(freqCounter * 0x1_0000) + ULong(Int16(tcnt1)))
  }

  // ---------------------------------------------------------------------
  // Interrupt service routines

  /** ISR(TIMER1_OVF_vect): count one more Timer 1 overflow, modulo 256. */
  function Timer1Overflow(s: State): (r: State)
    ensures (r.freqCounter - s.freqCounter) % 0x100 == 1
    ensures r.(freqCounter := s.freqCounter) == s
  {
    s.(freqCounter := (s.freqCounter + 1) % 0x100)
  }

  /**
   * ISR(TIMER2_OVF_vect), the gate sequencer.  Note that the residual
   * preload goes to TCNT0, not to the TCNT2 of the timer that overflowed.
   */
  function Timer2Overflow(s: State): (r: State)
    ensures r.freqCounter == s.freqCounter && r.tcnt1 == s.tcnt1 && r.tcnt2 == s.tcnt2
    ensures r.toie1 == s.toie1 && r.toie2 == s.toie2
    ensures r.dataReady <==> s.dataReady || s.lastSec
    ensures s.lastSec ==> !Timer1Running(r) && !Timer2Running(r) && !r.lastSec
    ensures !s.lastSec ==> r.tccr1b == s.tccr1b && r.tccr2b == s.tccr2b
  {
    if s.lastSec then
      Timer2Off(Timer1Off(s)).(dataReady := true, lastSec := false)
    else
      var secTimer := (s.secTimer - 1) % 0x100;
      if secTimer == 0 then s.(secTimer := secTimer, tcnt0 := LAST_SEC, lastSec := true)
      else s.(secTimer := secTimer)
  }

  // ---------------------------------------------------------------------
  // Hardware events

  /**
   * A falling edge on the T1 pin.  While Timer 1 runs it increments TCNT1
   * modulo 2^16; on the wrap, the overflow interrupt runs if enabled.
   */
  function Pulse(s: State): (r: State)
    ensures !Timer1Running(s) ==> r == s
    ensures r.(freqCounter := s.freqCounter, tcnt1 := s.tcnt1) == s
  {
    if !Timer1Running(s) then s
    else
      var s' := s.(tcnt1 := (s.tcnt1 + 1) % 0x1_0000);
      if s'.tcnt1 == 0 && s.toie1 then Timer1Overflow(s') else s'
  }

  /**
   * One tick of the prescaled clock.  While Timer 2 runs it increments
   * TCNT2 modulo 256; on the wrap, the overflow interrupt runs if enabled.
   */
  function Tick(s: State): (r: State)
    ensures !Timer2Running(s) ==> r == s
    ensures r.freqCounter == s.freqCounter && r.tcnt1 == s.tcnt1
    ensures r.toie1 == s.toie1 && r.toie2 == s.toie2
  {
    if !Timer2Running(s) then s
    else
      var s' := s.(tcnt2 := (s.tcnt2 + 1) % 0x100);
      if s'.tcnt2 == 0 && s.toie2 then Timer2Overflow(s') else s'
  }

  datatype Event = PulseEvent | TickEvent

  function Step(s: State, e: Event): State
  {
    match e
    case PulseEvent => Pulse(s)
    case TickEvent => Tick(s)
  }

  /** The state after the events happen in order, each handled atomically. */
  function Run(s: State, events: seq<Event>): State
    decreases |events|
  {
    if events == [] then s else Run(Step(s, events[0]), events[1..])
  }

  // ---------------------------------------------------------------------
  // main()

  /** The power-on state: registers and zero-initialised globals all clear. */
  const PowerOn: State := State(false, false, 0, 0, 0, 0, 0, 0, 0, false, false)

  /** The gate set-up shared by main's start and the loop's restart. */
  function StartTimers(s: State): (r: State)
  {
    Timer1On(Timer2On(T1Init(T2Init(s))))
  }

  /** main before its loop: seed the counters, clear all flags, start both timers. */
  function Startup(s: State): (r: State)
    ensures r.secTimer == ONE_SEC_GATE && r.freqCounter == 0 && r.tcnt1 == 0 && r.tcnt2 == 0
    ensures !r.dataReady && !r.lastSec
    ensures Timer1Running(r) && Timer2Running(r) && r.toie1 && r.toie2
  {
    StartTimers(s.(secTimer := ONE_SEC_GATE, freqCounter := 0, dataReady := false, lastSec := false))
  }

  /** The restart at the end of the loop body; it leaves the flags alone. */
  function Restart(s: State): (r: State)
    ensures r.secTimer == ONE_SEC_GATE && r.freqCounter == 0 && r.tcnt1 == 0 && r.tcnt2 == 0
    ensures r.dataReady == s.dataReady && r.lastSec == s.lastSec
    ensures Timer1Running(r) && Timer2Running(r) && r.toie1 && r.toie2
  {
    StartTimers(s.(secTimer := ONE_SEC_GATE, freqCounter := 0))
  }

  /**
   * One pass of main's loop.  When dataReady is set it is cleared, the
   * combined count is reported, and the gate restarts; otherwise nothing
   * happens.
   */
  function Poll(s: State): (r: (State, Option<uint32>))
    ensures !r.0.dataReady
    ensures r.1.Some? <==> s.dataReady
    ensures !s.dataReady ==> r.0 == s
    ensures s.dataReady ==> r.1 == Some(Frequency(s.freqCounter, s.tcnt1))
  {
    if !s.dataReady then (s, None)
    else
      var s' := s.(dataReady := false);
      (Restart(s'), Some(Frequency(s'.freqCounter, s'.tcnt1)))
  }
}
