/*
 * The same machine as the globals and registers that counter.c mutates in
 * place.  Every method changes only the fields its C counterpart writes and
 * is specified by the value-level function of module Counter that models it.
 */
module CounterDevice {
  import opened Counter

  class Avr {
    // globals of counter.c
    var dataReady: bool
    var lastSec: bool
    var secTimer: uint8
    var freqCounter: uint8
    // timer registers
    var tcnt0: uint8
    var tcnt1: uint16
    var tcnt2: uint8
    var tccr1b: uint8
    var tccr2b: uint8
    var toie1: bool
    var toie2: bool

    /** The values of all fields. */
    function Snapshot(): State
      reads this
    {
      State(dataReady, lastSec, secTimer, freqCounter,
                    tcnt0, tcnt1, tcnt2, tccr1b, tccr2b, toie1, toie2)
    }

    /** Power-on reset. */
    constructor ()
      ensures Snapshot() == PowerOn
    {
      dataReady, lastSec, secTimer, freqCounter := false, false, 0, 0;
      tcnt0, tcnt1, tcnt2 := 0, 0, 0;
      tccr1b, tccr2b, toie1, toie2 := 0, 0, false, false;
    }

    method T1Init()
      modifies this
      ensures Snapshot() == Counter.T1Init(old(Snapshot()))
    {
      tccr1b := 0;
      tcnt1 := 0;
      toie1 := true;
    }

    method T2Init()
      modifies this
      ensures Snapshot() == Counter.T2Init(old(Snapshot()))
    {
      tccr2b := 0;
      tcnt2 := 0;
      toie2 := true;
    }

    method Timer1Off()
      modifies this
      ensures Snapshot() == Counter.Timer1Off(old(Snapshot()))
    {
      tccr1b := 0;
    }

    method Timer1On()
      modifies this
      ensures Snapshot() == Counter.Timer1On(old(Snapshot()))
    {
      tccr1b := TIMER1_ON;
    }

    method Timer2Off()
      modifies this
      ensures Snapshot() == Counter.Timer2Off(old(Snapshot()))
    {
      tccr2b := 0;
    }

    method Timer2On()
      modifies this
      ensures Snapshot() == Counter.Timer2On(old(Snapshot()))
    {
      tccr2b := TIMER2_ON;
    }

    /** getTimer1: TCNT1 returned through a 16-bit signed `int`. */
    method GetTimer1() returns (r: int16)
      ensures (tcnt1 - r) % 0x1_0000 == 0
      ensures tcnt1 < 0x8000 ==> r == tcnt1
      ensures tcnt1 >= 0x8000 ==> r < 0
    {
      if tcnt1 < 0x8000 {
        r := tcnt1;
      } else {
        r := tcnt1 - 0x1_0000;
      }
    }

    /** ISR(TIMER1_OVF_vect). */
    method Timer1Overflow()
      modifies this
      ensures Snapshot() == Counter.Timer1Overflow(old(Snapshot()))
    {
      freqCounter := (freqCounter + 1) % 0x100;
    }

    /** ISR(TIMER2_OVF_vect). */
    method Timer2Overflow()
      modifies this
      ensures Snapshot() == Counter.Timer2Overflow(old(Snapshot()))
    {
      if lastSec {
        Timer1Off();
        Timer2Off();
        dataReady := true;
        lastSec := false;
      } else {
        secTimer := (secTimer - 1) % 0x100;
        if secTimer == 0 {
          tcnt0 := LAST_SEC;
          lastSec := true;
        }
      }
    }

    /** A falling edge on the T1 pin. */
    method Pulse()
      modifies this
      ensures Snapshot() == Counter.Pulse(old(Snapshot()))
    {
      if tccr1b % 8 != 0 {
        tcnt1 := (tcnt1 + 1) % 0x1_0000;
        if tcnt1 == 0 && toie1 {
          Timer1Overflow();
        }
      }
    }

    /** One tick of Timer 2's prescaled clock. */
    method Tick()
      modifies this
      ensures Snapshot() == Counter.Tick(old(Snapshot()))
    {
      if tccr2b % 8 != 0 {
        tcnt2 := (tcnt2 + 1) % 0x100;
        if tcnt2 == 0 && toie2 {
          Timer2Overflow();
        }
      }
    }

    /** main up to its loop, without the display and the delay. */
    method Startup()
      modifies this
      ensures Snapshot() == Counter.Startup(old(Snapshot()))
    {
      secTimer := ONE_SEC_GATE;
      freqCounter := 0;
      dataReady, lastSec := false, false;
      T2Init();
      T1Init();
      Timer2On();
      Timer1On();
    }

    /** The restart at the end of main's loop body. */
    method Restart()
      modifies this
      ensures Snapshot() == Counter.Restart(old(Snapshot()))
    {
      secTimer := ONE_SEC_GATE;
      freqCounter := 0;
      T2Init();
      T1Init();
      Timer2On();
      Timer1On();
    }

    /**
     * One pass of main's loop.  The value handed to ltoa and the display is
     * returned instead of being shown.
     */
    method Poll() returns (report: Option<uint32>)
      modifies this
      ensures (Snapshot(), report) == Counter.Poll(old(Snapshot()))
    {
      report := None;
      if dataReady {
        dataReady := false;
        var low := GetTimer1();
        var frequency := ULong(freqCounter * 0x1_0000);
        frequency := ULong(frequency + ULong(low));
        assert low == Int16(tcnt1);
        assert frequency == Frequency(freqCounter, tcnt1);
        report := Some(frequency);
        Restart();
      }
    }
  }
}
